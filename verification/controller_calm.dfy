// What every run keeps when no attempt has two requests granted with one of them
// for later: no item is ever due twice, so everything stays connected.
module ControllerCalm {
  import opened Wrappers
  import opened WorkQueue
  import opened EventStatus
  import opened Controller
  import opened ControllerSafety
  import opened ControllerWiring

  predicate HarmlessAt(s: State, c: nat)
    requires c < |s.chans|
  {
    Harmless(ReAdds(s.chans[c].sent, s.chans[c].start))
  }

  predicate AllHarmless(s: State) { forall c: nat :: c < |s.chans| ==> HarmlessAt(s, c) }

  function Granted(l: Loop): seq<bool> { ReAdds(l.consumed, l.start) }

  // An attempt's item is due again only through what the attempt was granted.
  predicate DueThrough(s: State, l: Loop) {
    && (Pending(s, l.item) ==> Granted(l) != [])
    && (l.item in s.delayed ==> true in Granted(l))
  }

  predicate AttemptOk(s: State, i: nat)
    requires i < |s.loops|
  {
    var l := s.loops[i];
    l.item < |s.items| && l.chan < |s.chans| && !s.items[l.item].child ==>
      l.start == s.chans[l.chan].start && (l.running ==> DueThrough(s, l))
  }

  predicate AttemptsOk(s: State) { forall i: nat :: i < |s.loops| ==> AttemptOk(s, i) }

  ghost predicate CalmInv(s: State) {
    Safe(s) && Connected(s) && DueOnce(s) && AllHarmless(s) && AttemptsOk(s)
  }

  lemma InitialCalm(workers: nat)
    ensures CalmInv(Initial(workers))
  {
    InitialSafe(workers);
  }

  // ---------- what is sent ----------

  lemma SameHarmless(s: State, s': State)
    requires AllHarmless(s) && |s.chans| <= |s'.chans|
    requires forall c :: 0 <= c < |s.chans| ==>
      s'.chans[c].sent == s.chans[c].sent && (s.chans[c].sent != [] ==> s'.chans[c].start == s.chans[c].start)
    requires forall c :: |s.chans| <= c < |s'.chans| ==> s'.chans[c].sent == []
    ensures AllHarmless(s')
  {
    forall c: nat | c < |s'.chans| ensures HarmlessAt(s', c) { if c < |s.chans| { assert HarmlessAt(s, c); } }
  }

  lemma SendHarmless(s: State, p: nat, m: Status)
    requires AllHarmless(s) && CanSend(s, p) && MaySend(s, p, m, Calm)
    ensures AllHarmless(DoSend(s, p, m))
  {
    var s' := DoSend(s, p, m);
    forall c: nat | c < |s'.chans| ensures HarmlessAt(s', c) {
      if c != s.producers[p].chan { assert HarmlessAt(s, c); }
    }
  }

  lemma SendChildHarmless(s: State, p: nat)
    requires AllHarmless(s) && CanSend(s, p)
    ensures AllHarmless(DoSendChild(s, p))
  {
    var s' := DoSendChild(s, p);
    var d := s.producers[p].chan;
    forall c: nat | c < |s'.chans| ensures HarmlessAt(s', c) {
      if c < |s.chans| {
        assert HarmlessAt(s, c);
        if c == d { ReAddsSnoc(s.chans[d].sent, ChildStatus(|s.chans|), s.chans[d].start); }
      }
    }
  }

  // ---------- what is due ----------

  // Nothing becomes due, or due for later; loops may stop, and take statuses that
  // grant nothing; children may be added.
  ghost predicate NoMoreDue(s: State, s': State) {
    && (forall x :: Pending(s', x) ==> Pending(s, x)) && (forall x :: x in s'.delayed ==> x in s.delayed)
    && |s.chans| <= |s'.chans| && |s.items| <= |s'.items| && |s.loops| <= |s'.loops|
    && (forall x :: 0 <= x < |s.items| ==> s'.items[x].child == s.items[x].child)
    && (forall i :: |s.loops| <= i < |s'.loops| ==> s'.loops[i].item < |s'.items| && s'.items[s'.loops[i].item].child)
  }

  predicate SameAttempt(s: State, s': State, i: nat)
    requires i < |s.loops| <= |s'.loops|
  {
    var a, b := s.loops[i], s'.loops[i];
    && b.item == a.item && b.chan == a.chan && b.start == a.start && (b.running ==> a.running)
    && Granted(b) == Granted(a)
    && (a.chan < |s.chans| <= |s'.chans| ==> s'.chans[a.chan].start == s.chans[a.chan].start)
  }

  lemma SameAttempts(s: State, s': State)
    requires InBounds(s) && AttemptsOk(s) && NoMoreDue(s, s')
    requires forall i: nat :: i < |s.loops| ==> SameAttempt(s, s', i)
    ensures AttemptsOk(s')
  {
    forall i: nat | i < |s'.loops| ensures AttemptOk(s', i) {
      if i < |s.loops| {
        assert AttemptOk(s, i) && SameAttempt(s, s', i);
      }
    }
  }

  // ---------- steps that make nothing due ----------

  lemma QueueCalm(s: State, s': State)
    requires CalmInv(s)
    requires s' == s.(queue := s'.queue, workers := s'.workers, delayed := s'.delayed)
    requires (forall x :: Pending(s', x) ==> Pending(s, x)) && (forall x :: x in s'.delayed ==> x in s.delayed)
    requires DueOnce(s')
    ensures AllHarmless(s') && AttemptsOk(s')
  {
    SameHarmless(s, s');
    forall i: nat | i < |s.loops| ensures SameAttempt(s, s', i) {}
    SameAttempts(s, s');
  }

  lemma HandlerHarmless(s: State, a: Action)
    requires AllHarmless(s) && Enabled(s, a, Calm) && (a.Send? || a.SendChild? || a.Close?)
    ensures AllHarmless(Step(s, a))
  {
    match a {
      case Send(p, m) => SendHarmless(s, p, m);
      case SendChild(p) => SendChildHarmless(s, p);
      case Close(p) => SameHarmless(s, Step(s, a));
    }
  }

  // Handlers leave queue, items and loops alone, and the counts attempts began with.
  lemma HandlerShape(s: State, a: Action)
    requires Enabled(s, a, Free) && (a.Send? || a.SendChild? || a.Close?)
    ensures var s' := Step(s, a);
            && s'.queue == s.queue && s'.delayed == s.delayed && s'.items == s.items && s'.loops == s.loops
            && |s.chans| <= |s'.chans| && forall c :: 0 <= c < |s.chans| ==> s'.chans[c].start == s.chans[c].start
  {
  }

  lemma HandlerCalm(s: State, a: Action)
    requires CalmInv(s) && Enabled(s, a, Calm) && Enabled(s, a, Free) && (a.Send? || a.SendChild? || a.Close?)
    ensures DueOnce(Step(s, a)) && AllHarmless(Step(s, a)) && AttemptsOk(Step(s, a))
  {
    hide AllHarmless, Connected, AttemptsOk;
    var s' := Step(s, a);
    HandlerHarmless(s, a);
    HandlerShape(s, a);
    forall i: nat | i < |s.loops| ensures SameAttempt(s, s', i) {}
    SameAttempts(s, s');
  }

  lemma InformCalm(s: State)
    requires CalmInv(s)
    ensures DueOnce(DoInform(s)) && AllHarmless(DoInform(s)) && AttemptsOk(DoInform(s))
  {
    var s' := DoInform(s);
    SameHarmless(s, s');
    assert forall x: nat :: x < |s.items| ==> s'.items[x] == s.items[x] && Pending(s', x) == Pending(s, x);
    forall i: nat | i < |s'.loops| ensures AttemptOk(s', i) { assert AttemptOk(s, i); }
  }

  lemma EndCalm(s: State, l: nat)
    requires CalmInv(s) && CanEnd(s, l)
    ensures DueOnce(DoEnd(s, l)) && AllHarmless(DoEnd(s, l)) && AttemptsOk(DoEnd(s, l))
  {
    var s' := DoEnd(s, l);
    EndShape(s, s', l);
    SameHarmless(s, s');
    forall i: nat | i < |s.loops| ensures SameAttempt(s, s', i) {}
    SameAttempts(s, s');
  }

  lemma DispatchCalm(s: State, w: nat)
    requires CalmInv(s) && Enabled(s, Dispatch(w), Free)
    ensures DueOnce(DoDispatch(s, w)) && AllHarmless(DoDispatch(s, w)) && AttemptsOk(DoDispatch(s, w))
  {
    var s' := DoDispatch(s, w);
    var x := s.queue.items[0];
    GetOk(s.queue);
    DispatchShape(s, s', w);
    assert Pending(s, x) && Fresh(s, s.items[x].chan) && ChanOkAt(s, s.items[x].chan);
    SameHarmless(s, s');
    LoopsHave(s);
    forall i: nat | i < |s'.loops| ensures AttemptOk(s', i) {
      if i < |s.loops| { assert AttemptOk(s, i); }
    }
  }

  // ---------- the status loop ----------

  // Taking a status adds to what the attempt was granted just what the loop
  // grants on it, and what it was granted stays part of what was sent.
  lemma TakenGrants(s: State, l: nat)
    requires Safe(s) && Connected(s) && AllHarmless(s) && AttemptsOk(s) && CanReceive(s, l) && !s.items[s.loops[l].item].child
    ensures var loop := s.loops[l];
            var m := s.chans[loop.chan].buf[0];
            var effect := EffectOf(m, s.items[loop.item].retryCount);
            var granted := ReAdds(loop.consumed + [m], loop.start);
            && granted == Granted(loop) + (if effect.NotifyAndRetry? then [effect.later] else [])
            && Harmless(granted)
  {
    var loop := s.loops[l];
    var c := s.chans[loop.chan];
    assert LoopOk(s, loop) && FollowsAt(s, l) && AttemptOk(s, l) && HarmlessAt(s, loop.chan);
    ReAddsSnoc(loop.consumed, c.buf[0], loop.start);
    HarmlessSoFar(loop.consumed, c.buf, c.sent, loop.start);
  }

  lemma HarmlessSoFar(consumed: seq<Status>, buf: seq<Status>, sent: seq<Status>, start: nat)
    requires buf != [] && sent == consumed + buf && Harmless(ReAdds(sent, start))
    ensures Harmless(ReAdds(consumed + [buf[0]], start))
  {
    var rest := buf[1..];
    assert sent == consumed + [buf[0]] + rest;
    ReAddsConcat(consumed + [buf[0]], rest, start);
    HarmlessPart(ReAdds(consumed + [buf[0]], start), ReAdds(rest, CountAfter(consumed + [buf[0]], start)));
  }

  // A status that grants nothing.
  lemma NothingGranted(s: State, l: nat)
    requires CalmInv(s) && CanReceive(s, l)
    requires !EffectOf(s.chans[s.loops[l].chan].buf[0], s.items[s.loops[l].item].retryCount).NotifyAndRetry?
    ensures var s' := DoReceive(s, l); |s.loops| <= |s'.loops| && SameAttempt(s, s', l)
  {
    hide Connected, AllHarmless, AttemptsOk;
    var loop := s.loops[l];
    assert LoopOk(s, loop);
    ReAddsSnoc(loop.consumed, s.chans[loop.chan].buf[0], loop.start);
    TakenBy(s, l);
  }

  // The loop is as it was, but for the status it took and its callbacks.
  lemma TakenBy(s: State, l: nat)
    requires CanReceive(s, l)
    ensures var s' := DoReceive(s, l);
            && |s.loops| <= |s'.loops| && |s.chans| <= |s'.chans|
            && s'.loops[l].item == s.loops[l].item && s'.loops[l].chan == s.loops[l].chan && s'.loops[l].start == s.loops[l].start
            && s'.loops[l].running == s.loops[l].running
            && s'.loops[l].consumed == s.loops[l].consumed + [s.chans[s.loops[l].chan].buf[0]]
            && forall c :: 0 <= c < |s.chans| ==> s'.chans[c].start == s.chans[c].start
  {
  }

  lemma ReceivedChans(s: State, l: nat)
    requires CanReceive(s, l)
    ensures var s' := DoReceive(s, l);
            && |s.chans| <= |s'.chans|
            && (forall c :: 0 <= c < |s.chans| ==> s'.chans[c].sent == s.chans[c].sent && s'.chans[c].start == s.chans[c].start)
            && (forall c :: |s.chans| <= c < |s'.chans| ==> s'.chans[c].sent == [])
  {
  }

  lemma ReceiveHarmless(s: State, l: nat)
    requires AllHarmless(s) && CanReceive(s, l)
    ensures AllHarmless(DoReceive(s, l))
  {
    ReceivedChans(s, l);
    SameHarmless(s, DoReceive(s, l));
  }

  lemma QuietShape(s: State, l: nat)
    requires CanReceive(s, l)
    requires !EffectOf(s.chans[s.loops[l].chan].buf[0], s.items[s.loops[l].item].retryCount).NotifyAndRetry?
    ensures var s' := DoReceive(s, l);
            && s'.queue == s.queue && s'.delayed == s.delayed && NoMoreDue(s, s')
            && forall i :: 0 <= i < |s.loops| && i != l ==> s'.loops[i] == s.loops[i]
  {
  }

  lemma QuietCalm(s: State, l: nat)
    requires CalmInv(s) && CanReceive(s, l)
    requires !EffectOf(s.chans[s.loops[l].chan].buf[0], s.items[s.loops[l].item].retryCount).NotifyAndRetry?
    ensures DueOnce(DoReceive(s, l)) && AttemptsOk(DoReceive(s, l))
  {
    var s' := DoReceive(s, l);
    QuietShape(s, l);
    ReceivedChans(s, l);
    NothingGranted(s, l);
    forall i: nat | i < |s.loops| ensures SameAttempt(s, s', i) {}
    SameAttempts(s, s');
  }

  // What was granted before makes it harmless to be due as this request wants.
  lemma RetryDueOnce(s: State, s': State, l: nat, st: Status, later: bool)
    requires DueOnce(s) && CanReceive(s, l) && s' == DoRetry(DoTake(s, l), l, s.loops[l].item, st, later)
    requires DueThrough(s, s.loops[l]) && Harmless(Granted(s.loops[l]) + [later])
    ensures DueOnce(s')
  {
    RetryShape(s, s', l, st, later);
    assert (Granted(s.loops[l]) + [later])[|Granted(s.loops[l])|] == later;
  }

  lemma RetryAttempts(s: State, s': State, l: nat, st: Status, later: bool)
    requires CalmInv(s) && CanReceive(s, l) && InBounds(s')
    requires s' == DoRetry(DoTake(s, l), l, s.loops[l].item, st, later)
    requires Granted(s'.loops[l]) == Granted(s.loops[l]) + [later]
    requires forall i :: 0 <= i < |s.chans| ==> s'.chans[i].start == s.chans[i].start
    ensures AttemptsOk(s')
  {
    hide Connected, AllHarmless, AttemptOk, Granted, DueThrough;
    var x := s.loops[l].item;
    RetryShape(s, s', l, st, later);
    RunsAlone(s, l);
    hide Safe;
    forall i: nat | i < |s'.loops| ensures AttemptOk(s', i) {
      assert AttemptOk(s, i);
      if i == l { RetryAttempt(s, s', l, st, later); } else { OtherAttempt(s, s', i, x); }
    }
  }

  // The attempts of other items.
  lemma OtherAttempt(s: State, s': State, i: nat, x: nat)
    requires i < |s.loops| && AttemptOk(s, i) && |s'.loops| == |s.loops| && s'.loops[i] == s.loops[i]
    requires s.loops[i].running ==> s.loops[i].item != x
    requires s.loops[i].item < |s.items| == |s'.items| && s'.items[s.loops[i].item].child == s.items[s.loops[i].item].child
    requires s.loops[i].chan < |s.chans| <= |s'.chans| && s'.chans[s.loops[i].chan].start == s.chans[s.loops[i].chan].start
    requires s'.queue == s.queue || s'.queue == Add(s.queue, x)
    requires s'.delayed == s.delayed || s'.delayed == s.delayed + {x}
    ensures AttemptOk(s', i)
  {
  }

  lemma RunsAlone(s: State, l: nat)
    requires Safe(s) && l < |s.loops| && s.loops[l].running
    ensures forall i :: 0 <= i < |s.loops| && i != l && s.loops[i].running ==> s.loops[i].item != s.loops[l].item
  {
  }

  lemma RetryAttempt(s: State, s': State, l: nat, st: Status, later: bool)
    requires CanReceive(s, l) && s' == DoRetry(DoTake(s, l), l, s.loops[l].item, st, later) && AttemptOk(s, l)
    requires Granted(s'.loops[l]) == Granted(s.loops[l]) + [later] && |s.chans| <= |s'.chans| && |s'.items| == |s.items|
    requires s'.items[s.loops[l].item].child == s.items[s.loops[l].item].child
    requires forall i :: 0 <= i < |s.chans| ==> s'.chans[i].start == s.chans[i].start
    ensures AttemptOk(s', l)
  {
    RetryShape(s, s', l, st, later);
    assert (Granted(s.loops[l]) + [later])[|Granted(s.loops[l])|] == later;
    assert true in Granted(s.loops[l]) ==> true in Granted(s.loops[l]) + [later];
  }

  lemma RetryStaysOnce(s: State, l: nat)
    requires CalmInv(s) && CanReceive(s, l)
    requires EffectOf(s.chans[s.loops[l].chan].buf[0], s.items[s.loops[l].item].retryCount).NotifyAndRetry?
    ensures DueOnce(DoReceive(s, l))
  {
    RetryFromInformer(s, l);
    TakenGrants(s, l);
    assert AttemptOk(s, l);
    hide Safe, Connected, AllHarmless, AttemptsOk;
    var effect := EffectOf(s.chans[s.loops[l].chan].buf[0], s.items[s.loops[l].item].retryCount);
    RetryDueOnce(s, DoReceive(s, l), l, effect.status, effect.later);
  }

  lemma RetryStaysOk(s: State, l: nat)
    requires CalmInv(s) && CanReceive(s, l)
    requires EffectOf(s.chans[s.loops[l].chan].buf[0], s.items[s.loops[l].item].retryCount).NotifyAndRetry?
    ensures AttemptsOk(DoReceive(s, l))
  {
    hide Connected, AllHarmless, AttemptsOk, KindsAgree, QueueHoldsInformerItems, MessagesOk, QueueOk, OneLive, Paid, LoopsOk;
    var effect := EffectOf(s.chans[s.loops[l].chan].buf[0], s.items[s.loops[l].item].retryCount);
    RetryFromInformer(s, l);
    TakenGrants(s, l);
    RetryItems(s, DoReceive(s, l), l, effect.status, effect.later);
    ReceivedChans(s, l);
    TakenBy(s, l);
    RetryAttempts(s, DoReceive(s, l), l, effect.status, effect.later);
  }

  lemma RetryCalm(s: State, l: nat)
    requires CalmInv(s) && CanReceive(s, l)
    requires EffectOf(s.chans[s.loops[l].chan].buf[0], s.items[s.loops[l].item].retryCount).NotifyAndRetry?
    ensures DueOnce(DoReceive(s, l)) && AttemptsOk(DoReceive(s, l))
  {
    hide Safe, Connected, AllHarmless, AttemptsOk, DueOnce;
    RetryStaysOnce(s, l);
    RetryStaysOk(s, l);
  }

  // ---------- every run ----------

  lemma HeadDueOnce(s: State)
    requires CalmInv(s) && s.queue.items != []
    ensures s.queue.items[0] !in s.delayed
  {
    GetOk(s.queue);
  }

  // Workers, timers and the end of the informer.
  lemma WorkerCalm(s: State, a: Action)
    requires CalmInv(s) && Enabled(s, a, Free)
    requires !a.Inform? && !a.Dispatch? && !a.Receive? && !a.End? && !a.Send? && !a.SendChild? && !a.Close?
    ensures DueOnce(Step(s, a)) && AllHarmless(Step(s, a)) && AttemptsOk(Step(s, a))
  {
    hide Safe, Connected, AllHarmless, AttemptsOk;
    QueueCalm(s, Step(s, a));
  }

  lemma ReceiveCalm(s: State, l: nat)
    requires CalmInv(s) && CanReceive(s, l)
    ensures DueOnce(DoReceive(s, l)) && AllHarmless(DoReceive(s, l)) && AttemptsOk(DoReceive(s, l))
  {
    hide Safe, Connected, AllHarmless, AttemptsOk, DueOnce;
    ReceiveHarmless(s, l);
    if EffectOf(s.chans[s.loops[l].chan].buf[0], s.items[s.loops[l].item].retryCount).NotifyAndRetry? {
      RetryCalm(s, l);
    } else {
      QuietCalm(s, l);
    }
  }

  lemma StepCalm(s: State, a: Action)
    requires CalmInv(s) && Enabled(s, a, Calm) && Enabled(s, a, Free)
    ensures CalmInv(Step(s, a))
  {
    hide Safe, Connected, AllHarmless, AttemptsOk, DueOnce, MaySend;
    StepSafe(s, a, Free);
    if a.Dispatch? { HeadDueOnce(s); }
    StepConnected(s, a);
    match a {
      case Inform => InformCalm(s);
      case Dispatch(w) => DispatchCalm(s, w);
      case Receive(l) => ReceiveCalm(s, l);
      case End(l) => EndCalm(s, l);
      case Send(_, _) => HandlerCalm(s, a);
      case SendChild(_) => HandlerCalm(s, a);
      case Close(_) => HandlerCalm(s, a);
      case _ => WorkerCalm(s, a);
    }
  }

  lemma {:induction false} RunCalm(s: State, actions: seq<Action>)
    requires CalmInv(s) && AllEnabled(s, actions, Calm)
    ensures CalmInv(Run(s, actions, Calm))
    decreases |actions|
  {
    if actions != [] {
      StepCalm(s, actions[0]);
      RunCalm(Step(s, actions[0]), actions[1..]);
    }
  }
}
