// Why runs have to be calm: any attempt that has two requests granted with one
// of them for later can be continued to a handler on a closed channel.
module ControllerUnrest {
  import opened Wrappers
  import opened WorkQueue
  import opened EventStatus
  import opened Controller
  import opened ControllerSafety
  import opened ControllerWiring
  import opened ControllerCalm

  // ---------- continuing a run ----------

  predicate Leads(s: State, actions: seq<Action>, u: State) {
    AllEnabled(s, actions, Free) && Run(s, actions, Free) == u
  }

  lemma {:induction false} Chained(s: State, actions: seq<Action>, t: State, more: seq<Action>, u: State)
    requires Leads(s, actions, t) && Leads(t, more, u)
    ensures Leads(s, actions + more, u)
    decreases |actions|
  {
    hide Enabled, Step;
    if actions == [] {
      assert actions + more == more;
    } else {
      Chained(Step(s, actions[0]), actions[1..], t, more, u);
      assert (actions + more)[1..] == actions[1..] + more;
    }
  }

  lemma Alone(s: State, a: Action)
    requires Enabled(s, a, Free)
    ensures Leads(s, [a], Step(s, a))
  {
    assert [a][1..] == [];
  }

  lemma Onward(s: State, actions: seq<Action>, u: State, a: Action)
    requires Leads(s, actions, u) && Enabled(u, a, Free)
    ensures Leads(s, actions + [a], Step(u, a))
  {
    Alone(u, a);
    Chained(s, actions, u, [a], Step(u, a));
  }

  // ---------- an attempt plays its statuses ----------

  // Handler p and loop l are at work on an attempt of item x, all received.
  predicate Attempt(s: State, p: nat, l: nat, x: nat) {
    && p < |s.producers| && s.producers[p].open && s.producers[p].chan < |s.chans| && s.chans[s.producers[p].chan].buf == []
    && l < |s.loops| && s.loops[l].running && s.loops[l].item == x && s.loops[l].chan == s.producers[p].chan
    && x < |s.items| && !s.items[x].child
  }

  // The queue accepts items and worker w is still there.
  predicate CanWork(s: State, w: nat) {
    w < |s.workers| && (s.workers[w].Ready? || s.workers[w].Busy?) && !s.queue.shuttingDown
  }

  // At most x is due both at once and later.
  predicate OthersDueOnce(s: State, x: nat) { forall y <- s.queue.dirty :: y != x ==> y !in s.delayed }

  predicate DueTwice(s: State, x: nat) { x in s.queue.dirty && x in s.delayed }

  // What the grants so far make of the item if its timer runs only to be in time
  // for the next one.
  predicate DueAs(s: State, x: nat, granted: seq<bool>) {
    if !Harmless(granted) then DueTwice(s, x)
    else if granted == [] then !Pending(s, x)
    else if true in granted then x in s.delayed && x !in s.queue.dirty
    else x in s.queue.dirty && x !in s.delayed
  }

  predicate Playing(s: State, p: nat, l: nat, x: nat, w: nat) {
    Attempt(s, p, l, x) && CanWork(s, w) && OthersDueOnce(s, x) && DueAs(s, x, Granted(s.loops[l]))
  }

  ghost predicate Sound(s: State) { Safe(s) && Connected(s) }

  lemma StepSound(s: State, a: Action)
    requires Sound(s) && Enabled(s, a, Free) && (a.Dispatch? ==> s.queue.items[0] !in s.delayed)
    ensures Sound(Step(s, a))
  {
    StepSafe(s, a, Free);
    StepConnected(s, a);
  }

  // Handler, worker, item and loop are as before, but for what the loop took.
  predicate SamePlay(s: State, t: State, l: nat, x: nat) {
    && t.producers == s.producers && t.workers == s.workers && t.queue.shuttingDown == s.queue.shuttingDown
    && l < |s.loops| && |t.loops| == |s.loops| && x < |s.items| && |t.items| == |s.items| && |s.chans| <= |t.chans|
    && t.items[x].child == s.items[x].child && t.loops[l].item == s.loops[l].item && t.loops[l].chan == s.loops[l].chan
    && t.loops[l].start == s.loops[l].start && t.loops[l].running == s.loops[l].running
  }

  // Only x has become more or less due.
  ghost predicate OnlyDue(s: State, t: State, x: nat) {
    forall y :: y != x ==> (y in t.queue.dirty <==> y in s.queue.dirty) && (y in t.delayed <==> y in s.delayed)
  }

  // The handler sends m.
  lemma PlaySend(s: State, p: nat, l: nat, x: nat, m: Status)
    requires Sound(s) && Attempt(s, p, l, x) && m.kind != CreateChild
    ensures Enabled(s, Send(p, m), Free)
    ensures var t := DoSend(s, p, m);
            && CanReceive(t, l) && SamePlay(s, t, l, x) && t.queue == s.queue && t.delayed == s.delayed
            && t.items == s.items && t.loops == s.loops && |t.chans| == |s.chans|
            && t.chans[s.loops[l].chan].buf == [m]
            && t.chans[s.loops[l].chan].sent == s.chans[s.loops[l].chan].sent + [m]
  {
    assert !s.chans[s.producers[p].chan].closed;
    assert s.items[x].child == s.chans[s.loops[l].chan].forChild;
  }

  // The timer runs out.
  lemma PlayFire(s: State, l: nat, x: nat)
    requires l < |s.loops| && x < |s.items| && x in s.delayed && !s.queue.shuttingDown
    ensures var t := Step(s, Fire(x));
            && SamePlay(s, t, l, x) && t.items == s.items && t.loops == s.loops && t.chans == s.chans
            && x in t.queue.dirty && x !in t.delayed && OnlyDue(s, t, x)
  {
  }

  function Effects(s: State, x: nat, m: Status): Effect
    requires x < |s.items|
  {
    EffectOf(m, s.items[x].retryCount)
  }

  // What the loop grants for m is added to what is due.
  predicate DueAfter(s: State, t: State, x: nat, effect: Effect) {
    && t.queue.dirty == s.queue.dirty + (if effect.NotifyAndRetry? && !effect.later then {x} else {})
    && t.delayed == s.delayed + (if effect.NotifyAndRetry? && effect.later then {x} else {})
  }

  lemma TakenFrame(s: State, l: nat, x: nat, m: Status)
    requires CanReceive(s, l) && s.loops[l].item == x && m.kind != CreateChild && s.chans[s.loops[l].chan].buf == [m]
    requires !s.queue.shuttingDown
    ensures var t := DoReceive(s, l); SamePlay(s, t, l, x) && DueAfter(s, t, x, Effects(s, x, m))
  {
    var t := DoReceive(s, l);
    match Effects(s, x, m) {
      case Silent =>
      case Notify(st) => NotifyShape(s, t, l, st, AsksRetry(m));
      case NotifyAndRetry(st, later) => RetryShape(s, t, l, st, later);
    }
  }

  lemma TakenStatus(s: State, l: nat, x: nat, m: Status)
    requires CanReceive(s, l) && s.loops[l].item == x && m.kind != CreateChild && s.chans[s.loops[l].chan].buf == [m]
    ensures var t := DoReceive(s, l);
            && |s.chans| <= |t.chans| && l < |t.loops| && t.loops[l].consumed == s.loops[l].consumed + [m]
            && t.chans[s.loops[l].chan].buf == [] && t.chans[s.loops[l].chan].sent == s.chans[s.loops[l].chan].sent
  {
    ReceivedChans(s, l);
    var t := DoReceive(s, l);
    match Effects(s, x, m) {
      case Silent =>
      case Notify(st) => NotifyShape(s, t, l, st, AsksRetry(m));
      case NotifyAndRetry(st, later) => RetryShape(s, t, l, st, later);
    }
  }

  lemma NowGranted(s: State, t: State, l: nat, x: nat, m: Status)
    requires LoopsOk(s) && l < |s.loops| && s.loops[l].running && s.loops[l].item == x && x < |s.items|
    requires l < |t.loops| && t.loops[l].start == s.loops[l].start && t.loops[l].consumed == s.loops[l].consumed + [m]
    ensures Granted(t.loops[l]) == MoreGranted(Granted(s.loops[l]), Effects(s, x, m))
  {
    assert LoopOk(s, s.loops[l]);
    ReAddsSnoc(s.loops[l].consumed, m, s.loops[l].start);
  }

  function MoreGranted(granted: seq<bool>, effect: Effect): seq<bool> {
    granted + if effect.NotifyAndRetry? then [effect.later] else []
  }

  // Being due after one more grant.
  lemma DueAsMore(s: State, t: State, x: nat, granted: seq<bool>, later: bool)
    requires DueAs(s, x, granted) || (granted == [true] && x in s.queue.dirty && x !in s.delayed)
    requires granted == [true] && later ==> x in s.queue.dirty && x !in s.delayed
    requires granted == [true] && !later ==> x !in s.queue.dirty && x in s.delayed
    requires x in t.queue.dirty <==> x in s.queue.dirty || !later
    requires x in t.delayed <==> x in s.delayed || later
    ensures DueAs(t, x, granted + [later])
  {
    var more := granted + [later];
    assert more[|granted|] == later;
    assert true in more <==> true in granted || later;
    if granted != [] && Harmless(granted) && true in granted { assert |granted| == 1 && granted == [true]; }
  }

  // Before the loop takes m, the timer runs out if m would only start it again.
  predicate FiresFirst(granted: seq<bool>, effect: Effect) {
    effect.NotifyAndRetry? && effect.later && granted == [true]
  }

  // s: before m was sent; t: before the loop takes it.
  lemma PlayedDue(s: State, t: State, u: State, x: nat, granted: seq<bool>, effect: Effect)
    requires DueAs(s, x, granted) && DueAfter(t, u, x, effect)
    requires if FiresFirst(granted, effect) then x in t.queue.dirty && x !in t.delayed
             else t.queue.dirty == s.queue.dirty && t.delayed == s.delayed
    ensures DueAs(u, x, MoreGranted(granted, effect))
  {
    if effect.NotifyAndRetry? {
      assert granted == [true] ==> true in granted && Harmless(granted);
      DueAsMore(t, u, x, granted, effect.later);
    } else {
      assert granted + [] == granted;
    }
  }

  // The handler has sent m, and the timer has run out if it had to.
  lemma PlaySent(s: State, p: nat, l: nat, x: nat, w: nat, m: Status) returns (actions: seq<Action>, t: State)
    requires Sound(s) && Playing(s, p, l, x, w) && m.kind != CreateChild
    ensures Leads(s, actions, t) && Sound(t) && SamePlay(s, t, l, x) && CanReceive(t, l) && OnlyDue(s, t, x)
    ensures t.items == s.items && t.loops == s.loops && |t.chans| == |s.chans|
    ensures t.chans[s.loops[l].chan].buf == [m] && t.chans[s.loops[l].chan].sent == s.chans[s.loops[l].chan].sent + [m]
    ensures if FiresFirst(Granted(s.loops[l]), Effects(s, x, m)) then x in t.queue.dirty && x !in t.delayed
            else t.queue.dirty == s.queue.dirty && t.delayed == s.delayed
  {
    PlaySend(s, p, l, x, m);
    Alone(s, Send(p, m));
    StepSound(s, Send(p, m));
    actions, t := [Send(p, m)], DoSend(s, p, m);
    if FiresFirst(Granted(s.loops[l]), Effects(s, x, m)) {
      assert true in Granted(s.loops[l]) && Harmless(Granted(s.loops[l]));
      PlayFire(t, l, x);
      Onward(s, actions, t, Fire(x));
      StepSound(t, Fire(x));
      actions, t := actions + [Fire(x)], Step(t, Fire(x));
    }
  }

  lemma PlayOne(s: State, p: nat, l: nat, x: nat, w: nat, m: Status) returns (actions: seq<Action>, u: State)
    requires Sound(s) && Playing(s, p, l, x, w) && m.kind != CreateChild
    ensures Leads(s, actions, u) && Sound(u) && Playing(u, p, l, x, w) && Played(s, u, l, [m])
  {
    var t;
    actions, t := PlaySent(s, p, l, x, w, m);
    TakenFrame(t, l, x, m);
    TakenStatus(t, l, x, m);
    Onward(s, actions, t, Receive(l));
    StepSound(t, Receive(l));
    actions, u := actions + [Receive(l)], DoReceive(t, l);
    NowGranted(t, u, l, x, m);
    PlayedDue(s, t, u, x, Granted(s.loops[l]), Effects(s, x, m));
    StillPlaying(s, t, u, p, l, x, w, m);
  }

  lemma StillPlaying(s: State, t: State, u: State, p: nat, l: nat, x: nat, w: nat, m: Status)
    requires Playing(s, p, l, x, w) && SamePlay(s, t, l, x) && SamePlay(t, u, l, x)
    requires OnlyDue(s, t, x) && DueAfter(t, u, x, Effects(t, x, m))
    requires u.chans[s.loops[l].chan].buf == [] && DueAs(u, x, Granted(u.loops[l]))
    ensures Playing(u, p, l, x, w)
  {
    assert OthersDueOnce(u, x);
  }

  // Loop l has taken ms more, all that was sent.
  predicate Played(s: State, u: State, l: nat, ms: seq<Status>) {
    && l < |s.loops| && l < |u.loops| && u.loops[l].chan == s.loops[l].chan && u.loops[l].start == s.loops[l].start
    && u.loops[l].consumed == s.loops[l].consumed + ms
    && s.loops[l].chan < |s.chans| <= |u.chans|
    && u.chans[s.loops[l].chan].sent == s.chans[s.loops[l].chan].sent + ms
  }

  // ---------- announcements among them ----------

  // ns is ms, but the channels of announced children are those made.
  predicate SaidAs(ms: seq<Status>, ns: seq<Status>) {
    |ns| == |ms| && forall i :: 0 <= i < |ms| ==> if ms[i].kind == CreateChild then ns[i].kind == CreateChild else ns[i] == ms[i]
  }

  // Announcing children gets no request granted.
  lemma {:induction false} SaidAsGranted(ms: seq<Status>, ns: seq<Status>, start: nat)
    requires SaidAs(ms, ns)
    ensures ReAdds(ns, start) == ReAdds(ms, start) && CountAfter(ns, start) == CountAfter(ms, start)
    decreases |ms|
  {
    if ms != [] {
      var n := |ms| - 1;
      SaidAsGranted(ms[..n], ns[..n], start);
      assert if ms[n].kind == CreateChild then ns[n].kind == CreateChild else ns[n] == ms[n];
    }
  }

  lemma SentChild(s: State, p: nat, l: nat, x: nat, w: nat)
    requires Sound(s) && Playing(s, p, l, x, w)
    ensures Enabled(s, SendChild(p), Free)
    ensures var t := DoSendChild(s, p);
            && CanReceive(t, l) && t == s.(chans := t.chans, producers := t.producers)
            && |t.chans| == |s.chans| + 1 && |t.producers| == |s.producers| + 1 && t.producers[p] == s.producers[p]
            && t.chans[s.loops[l].chan].buf == [ChildStatus(|s.chans|)]
            && t.chans[s.loops[l].chan].sent == s.chans[s.loops[l].chan].sent + [ChildStatus(|s.chans|)]
  {
    assert !s.chans[s.producers[p].chan].closed;
  }

  lemma AdoptedChild(t: State, l: nat, n: nat)
    requires CanReceive(t, l) && t.chans[t.loops[l].chan].buf == [ChildStatus(n)] && n < |t.chans|
    ensures var u := DoReceive(t, l);
            && u == t.(items := u.items, loops := u.loops, chans := u.chans)
            && |t.items| < |u.items| && u.items[t.loops[l].item] == t.items[t.loops[l].item]
            && |t.loops| < |u.loops| && |u.chans| == |t.chans|
            && u.loops[l] == t.loops[l].(consumed := t.loops[l].consumed + [ChildStatus(n)])
            && u.chans[t.loops[l].chan].buf == [] && u.chans[t.loops[l].chan].sent == t.chans[t.loops[l].chan].sent
  {
  }

  // The handler announces a child and the loop starts another one for it.
  lemma PlayChild(s: State, p: nat, l: nat, x: nat, w: nat) returns (actions: seq<Action>, u: State)
    requires Sound(s) && Playing(s, p, l, x, w)
    ensures Leads(s, actions, u) && Sound(u) && Playing(u, p, l, x, w) && Played(s, u, l, [ChildStatus(|s.chans|)])
  {
    hide Safe, Connected, Run, AllEnabled;
    SentChild(s, p, l, x, w);
    var t := DoSendChild(s, p);
    Alone(s, SendChild(p));
    StepSound(s, SendChild(p));
    AdoptedChild(t, l, |s.chans|);
    Onward(s, [SendChild(p)], t, Receive(l));
    StepSound(t, Receive(l));
    actions, u := [SendChild(p)] + [Receive(l)], DoReceive(t, l);
    PlayingOn(s, u, p, l, x, w, ChildStatus(|s.chans|));
  }

  lemma PlayingOn(s: State, u: State, p: nat, l: nat, x: nat, w: nat, m: Status)
    requires Playing(s, p, l, x, w) && m.kind == CreateChild
    requires |s.chans| <= |u.chans| && |s.items| <= |u.items| && |s.loops| <= |u.loops| && |s.producers| <= |u.producers|
    requires u.producers[p] == s.producers[p] && u.items[x] == s.items[x] && u.workers == s.workers
    requires u.queue == s.queue && u.delayed == s.delayed
    requires u.loops[l] == s.loops[l].(consumed := s.loops[l].consumed + [m]) && u.chans[s.loops[l].chan].buf == []
    ensures Playing(u, p, l, x, w)
  {
    ReAddsSnoc(s.loops[l].consumed, m, s.loops[l].start);
    assert Granted(u.loops[l]) == Granted(s.loops[l]);
    assert OthersDueOnce(u, x);
  }

  lemma PlayedMore(s: State, t: State, u: State, l: nat, ms: seq<Status>, m: Status)
    requires Played(s, t, l, ms) && Played(t, u, l, [m])
    ensures Played(s, u, l, ms + [m])
  {
    assert s.loops[l].consumed + ms + [m] == s.loops[l].consumed + (ms + [m]);
    assert s.chans[s.loops[l].chan].sent + ms + [m] == s.chans[s.loops[l].chan].sent + (ms + [m]);
  }

  lemma PlayedNothing(s: State, p: nat, l: nat, x: nat, w: nat)
    requires Playing(s, p, l, x, w)
    ensures Leads(s, [], s) && Played(s, s, l, [])
  {
    assert s.loops[l].consumed + [] == s.loops[l].consumed;
    assert s.chans[s.loops[l].chan].sent + [] == s.chans[s.loops[l].chan].sent;
  }

  lemma PlayNext(s: State, p: nat, l: nat, x: nat, w: nat, m: Status) returns (actions: seq<Action>, u: State, n: Status)
    requires Sound(s) && Playing(s, p, l, x, w)
    ensures Leads(s, actions, u) && Sound(u) && Playing(u, p, l, x, w) && Played(s, u, l, [n])
    ensures if m.kind == CreateChild then n.kind == CreateChild else n == m
  {
    if m.kind == CreateChild {
      actions, u := PlayChild(s, p, l, x, w);
      n := ChildStatus(|s.chans|);
    } else {
      actions, u := PlayOne(s, p, l, x, w, m);
      n := m;
    }
  }

  lemma {:induction false} PlayAll(s: State, p: nat, l: nat, x: nat, w: nat, ms: seq<Status>)
    returns (actions: seq<Action>, u: State, ns: seq<Status>)
    requires Sound(s) && Playing(s, p, l, x, w)
    ensures Leads(s, actions, u) && Sound(u) && Playing(u, p, l, x, w) && Played(s, u, l, ns) && SaidAs(ms, ns)
    decreases |ms|
  {
    hide Safe, Connected, Playing, Run, AllEnabled;
    if ms == [] {
      actions, u, ns := [], s, [];
      PlayedNothing(s, p, l, x, w);
    } else {
      var k := |ms| - 1;
      var before, t, said := PlayAll(s, p, l, x, w, ms[..k]);
      var more, n;
      more, u, n := PlayNext(t, p, l, x, w, ms[k]);
      Chained(s, before, t, more, u);
      PlayedMore(s, t, u, l, said, n);
      actions, ns := before + more, said + [n];
    }
  }

  // ---------- the item comes round ----------

  // Channels keep what was sent on them and stay closed; x keeps its channel.
  predicate Later(s: State, u: State, x: nat) {
    && |s.chans| <= |u.chans| && x < |s.items| && x < |u.items| && u.items[x].chan == s.items[x].chan
    && forall c :: 0 <= c < |s.chans| ==> u.chans[c].sent == s.chans[c].sent && (s.chans[c].closed ==> u.chans[c].closed)
  }

  predicate Queued(s: State, x: nat, w: nat) { CanWork(s, w) && x in s.queue.items && x < |s.items| }

  lemma MakeReady(s: State, w: nat) returns (actions: seq<Action>, u: State)
    requires Safe(s) && CanWork(s, w)
    ensures Leads(s, actions, u) && Safe(u) && u == s.(workers := u.workers) && w < |u.workers| && u.workers[w].Ready?
    ensures Connected(s) ==> Connected(u)
  {
    actions, u := [], s;
    if s.workers[w].Busy? {
      Alone(s, Release(w));
      StepSafe(s, Release(w), Free);
      if Connected(s) { StepConnected(s, Release(w)); }
      actions, u := [Release(w)], Step(s, Release(w));
    }
  }

  lemma InFront(items: seq<nat>, x: nat)
    requires x in items && items[0] != x
    ensures x in items[1..]
  {
  }

  lemma PassShape(s: State, x: nat, w: nat)
    requires Safe(s) && Queued(s, x, w) && s.workers[w].Ready? && s.queue.items[0] != x
    ensures Enabled(s, Dispatch(w), Free)
    ensures var u := DoDispatch(s, w);
            && Queued(u, x, w) && Later(s, u, x) && u.delayed == s.delayed && |u.queue.items| < |s.queue.items|
            && u.queue.dirty == s.queue.dirty - {s.queue.items[0]}
            && s.queue.items[0] in s.queue.dirty
  {
    assert s.queue.items[0] in s.queue.items;
    DispatchShape(s, DoDispatch(s, w), w);
    InFront(s.queue.items, x);
  }

  // Another item at the head of the queue is handed out.
  lemma PassOne(s: State, x: nat, w: nat)
    requires Safe(s) && Queued(s, x, w) && s.workers[w].Ready? && s.queue.items[0] != x
    ensures Enabled(s, Dispatch(w), Free)
    ensures var u := DoDispatch(s, w);
            Safe(u) && Queued(u, x, w) && Passed(s, u, x) && |u.queue.items| < |s.queue.items|
  {
    PassShape(s, x, w);
    hide Safe, Connected;
    StepSafe(s, Dispatch(w), Free);
    if OthersDueOnce(s, x) && Connected(s) { StepConnected(s, Dispatch(w)); }
  }

  // The way from s to u brings x nothing new.
  ghost predicate Passed(s: State, u: State, x: nat) {
    && Later(s, u, x) && u.delayed == s.delayed && (x in u.queue.dirty <==> x in s.queue.dirty)
    && (forall y :: y in u.queue.dirty ==> y in s.queue.dirty)
    && (OthersDueOnce(s, x) && Connected(s) ==> Connected(u))
  }

  lemma PassedBoth(s: State, t: State, u: State, x: nat)
    requires Passed(s, t, x) && Passed(t, u, x)
    ensures Passed(s, u, x)
  {
    assert OthersDueOnce(s, x) ==> OthersDueOnce(t, x);
  }

  // Every item before x is handed out to worker w.
  lemma {:induction false} BringToFront(s: State, x: nat, w: nat) returns (actions: seq<Action>, u: State)
    requires Safe(s) && Queued(s, x, w)
    ensures Leads(s, actions, u) && Safe(u) && Queued(u, x, w) && u.workers[w].Ready? && u.queue.items[0] == x
    ensures Passed(s, u, x)
    decreases |s.queue.items|
  {
    var ready, t := MakeReady(s, w);
    assert Passed(s, t, x) && Queued(t, x, w);
    if t.queue.items[0] == x {
      actions, u := ready, t;
    } else {
      PassOne(t, x, w);
      var v := DoDispatch(t, w);
      Onward(s, ready, t, Dispatch(w));
      var more;
      more, u := BringToFront(v, x, w);
      Chained(s, ready + [Dispatch(w)], v, more, u);
      actions := ready + [Dispatch(w)] + more;
      PassedBoth(s, t, v, x);
      PassedBoth(s, v, u, x);
    }
  }

  // ---------- the attempt after, and the one after that ----------

  // The handler closes its channel.
  lemma HandlerCloses(s: State, p: nat, l: nat, x: nat)
    requires Sound(s) && Attempt(s, p, l, x)
    ensures Enabled(s, Close(p), Free) && CanEnd(DoClose(s, p), l) && Later(s, DoClose(s, p), x)
  {
    assert !s.chans[s.producers[p].chan].closed;
  }

  // The loop ends and the item is queued again.
  lemma LoopEnds(s: State, l: nat, x: nat, w: nat)
    requires Safe(s) && CanEnd(s, l) && s.loops[l].item == x && !s.items[x].child && CanWork(s, w) && x in s.queue.dirty
    ensures Enabled(s, End(l), Free)
    ensures var u := DoEnd(s, l);
            && Queued(u, x, w) && u.queue.dirty == s.queue.dirty && u.delayed == s.delayed && Later(s, u, x)
            && x !in u.queue.processing
  {
    EndShape(s, DoEnd(s, l), l);
  }

  lemma LaterBoth(s: State, t: State, u: State, x: nat)
    requires Later(s, t, x) && Later(t, u, x)
    ensures Later(s, u, x)
  {
  }

  // The attempt ends, with its item due twice.
  lemma AttemptEnds(s: State, p: nat, l: nat, x: nat, w: nat) returns (actions: seq<Action>, u: State)
    requires Sound(s) && Playing(s, p, l, x, w) && DueTwice(s, x)
    ensures Leads(s, actions, u) && Sound(u) && Queued(u, x, w) && DueTwice(u, x) && OthersDueOnce(u, x) && Later(s, u, x)
  {
    HandlerCloses(s, p, l, x);
    var t := DoClose(s, p);
    Alone(s, Close(p));
    StepSound(s, Close(p));
    LoopEnds(t, l, x, w);
    Onward(s, [Close(p)], t, End(l));
    StepSound(t, End(l));
    actions, u := [Close(p)] + [End(l)], DoEnd(t, l);
    LaterBoth(s, t, u, x);
  }

  // x is handed out with its fresh channel, by a new handler to a new loop.
  lemma HandsOut(s: State, x: nat, w: nat)
    requires Sound(s) && Queued(s, x, w) && s.workers[w].Ready? && s.queue.items[0] == x
    ensures Enabled(s, Dispatch(w), Free)
    ensures var u := DoDispatch(s, w);
            && Attempt(u, |s.producers|, |s.loops|, x) && CanWork(u, w) && Later(s, u, x) && x !in u.queue.dirty
            && u.delayed == s.delayed && u.loops[|s.loops|].chan == u.items[x].chan
            && !u.chans[u.items[x].chan].closed
  {
    GetOk(s.queue);
    assert Pending(s, x) && Fresh(s, s.items[x].chan) && ChanOkAt(s, s.items[x].chan);
    DispatchShape(s, DoDispatch(s, w), w);
  }

  // It closes at once.
  lemma ClosesAtOnce(s: State, q: nat, k: nat, x: nat)
    requires Attempt(s, q, k, x) && !s.chans[s.producers[q].chan].closed && s.loops[k].chan == s.items[x].chan
    ensures Enabled(s, Close(q), Free)
    ensures var u := DoClose(s, q);
            && CanEnd(u, k) && Later(s, u, x) && u.chans[u.items[x].chan].closed
            && u == s.(chans := u.chans, producers := u.producers)
  {
  }

  lemma TimerQueues(s: State, x: nat, w: nat)
    requires CanWork(s, w) && x < |s.items| && x in s.delayed && x !in s.queue.dirty && x !in s.queue.processing
    ensures Enabled(s, Fire(x), Free)
    ensures var u := Step(s, Fire(x)); Queued(u, x, w) && u.chans == s.chans && u.items == s.items
  {
  }

  // The loop of an attempt that is over ends; its item is due later only.
  lemma EndsForLater(s: State, k: nat, x: nat, w: nat)
    requires Safe(s) && CanEnd(s, k) && s.loops[k].item == x && CanWork(s, w) && x !in s.queue.dirty
    ensures Enabled(s, End(k), Free)
    ensures var u := DoEnd(s, k);
            && CanWork(u, w) && x !in u.queue.dirty && x !in u.queue.processing && u.delayed == s.delayed
            && u.chans == s.chans && |u.items| == |s.items| && u.items[x].chan == s.items[x].chan
  {
    EndShape(s, DoEnd(s, k), k);
  }

  // The next attempt gets a fresh channel and closes it; then the timer runs out.
  lemma NextAttempt(s: State, x: nat, w: nat) returns (actions: seq<Action>, u: State)
    requires Sound(s) && Queued(s, x, w) && s.workers[w].Ready? && s.queue.items[0] == x && x in s.delayed
    ensures Leads(s, actions, u) && Safe(u) && Queued(u, x, w) && Later(s, u, x)
    ensures u.items[x].chan < |u.chans| && u.chans[u.items[x].chan].closed
  {
    hide Safe, Connected, Run, AllEnabled;
    var q, k := |s.producers|, |s.loops|;
    HandsOut(s, x, w);
    var a := DoDispatch(s, w);
    Alone(s, Dispatch(w));
    StepSafe(s, Dispatch(w), Free);
    ClosesAtOnce(a, q, k, x);
    var b := DoClose(a, q);
    Onward(s, [Dispatch(w)], a, Close(q));
    StepSafe(a, Close(q), Free);
    var more;
    more, u := ThenTimer(b, k, x, w);
    Chained(s, [Dispatch(w)] + [Close(q)], b, more, u);
    actions := [Dispatch(w)] + [Close(q)] + more;
    LaterBoth(s, a, b, x);
  }

  lemma ThenTimer(s: State, k: nat, x: nat, w: nat) returns (actions: seq<Action>, u: State)
    requires Safe(s) && CanEnd(s, k) && s.loops[k].item == x && CanWork(s, w) && x !in s.queue.dirty && x in s.delayed
    ensures Leads(s, actions, u) && Safe(u) && Queued(u, x, w) && u.chans == s.chans && |u.items| == |s.items|
    ensures u.items[x].chan == s.items[x].chan
  {
    EndsForLater(s, k, x, w);
    var t := DoEnd(s, k);
    Alone(s, End(k));
    StepSafe(s, End(k), Free);
    TimerQueues(t, x, w);
    Onward(s, [End(k)], t, Fire(x));
    StepSafe(t, Fire(x), Free);
    actions, u := [End(k)] + [Fire(x)], Step(t, Fire(x));
  }

  lemma HandedClosed(s: State, x: nat, w: nat)
    requires Safe(s) && Queued(s, x, w) && s.workers[w].Ready? && s.queue.items[0] == x
    requires s.items[x].chan < |s.chans| && s.chans[s.items[x].chan].closed
    ensures Enabled(s, Dispatch(w), Free) && Panics(DoDispatch(s, w), |s.producers|) && Later(s, DoDispatch(s, w), x)
  {
    DispatchShape(s, DoDispatch(s, w), w);
  }

  // The attempt after that is handed the channel just closed.
  lemma LastAttempt(s: State, x: nat, w: nat) returns (actions: seq<Action>, u: State, q: nat)
    requires Safe(s) && Queued(s, x, w) && s.items[x].chan < |s.chans| && s.chans[s.items[x].chan].closed
    ensures Leads(s, actions, u) && Later(s, u, x) && Panics(u, q)
  {
    var front, t := BringToFront(s, x, w);
    HandedClosed(t, x, w);
    Onward(s, front, t, Dispatch(w));
    LaterBoth(s, t, DoDispatch(t, w), x);
    actions, u, q := front + [Dispatch(w)], DoDispatch(t, w), |t.producers|;
  }

  lemma DueTwicePanics(s: State, p: nat, l: nat, x: nat, w: nat) returns (actions: seq<Action>, u: State, q: nat)
    requires Sound(s) && Playing(s, p, l, x, w) && DueTwice(s, x)
    ensures Leads(s, actions, u) && Later(s, u, x) && Panics(u, q)
  {
    var a1, t1 := AttemptEnds(s, p, l, x, w);
    var a2, t2 := BringToFront(t1, x, w);
    var a3, t3 := NextAttempt(t2, x, w);
    var a4;
    a4, u, q := LastAttempt(t3, x, w);
    Chained(s, a1, t1, a2, t2);
    Chained(s, a1 + a2, t2, a3, t3);
    Chained(s, a1 + a2 + a3, t3, a4, u);
    actions := a1 + a2 + a3 + a4;
    LaterBoth(s, t1, t2, x);
    LaterBoth(s, t2, t3, x);
    LaterBoth(s, t3, u, x);
  }

  // ---------- no weaker contract will do ----------

  // From every state a calm run reaches, with the queue accepting items and a
  // worker left: an attempt that has sent nothing yet and sends ms, children's
  // announcements among them, which gets two requests granted with one of them
  // for later, can be continued to a panic in which it has sent just that.
  lemma UnrestPanics(s: State, p: nat, l: nat, x: nat, w: nat, ms: seq<Status>) returns (actions: seq<Action>, q: nat)
    requires CalmInv(s) && Attempt(s, p, l, x) && CanWork(s, w)
    requires s.chans[s.producers[p].chan].sent == []
    requires !Harmless(ReAdds(ms, s.chans[s.producers[p].chan].start))
    ensures AllEnabled(s, actions, Free)
    ensures var u := Run(s, actions, Free);
            Panics(u, q) && |s.chans| <= |u.chans| && SaidAs(ms, u.chans[s.producers[p].chan].sent)
  {
    hide CalmInv, Safe, Connected, Playing, Run, AllEnabled, ReAdds;
    AttemptBegins(s, p, l, x, w);
    var played, t, ns := PlayAll(s, p, l, x, w, ms);
    SaidAsGranted(ms, ns, s.loops[l].start);
    PlayedOut(s, t, p, l, x, w, ns);
    var more, u;
    more, u, q := DueTwicePanics(t, p, l, x, w);
    Chained(s, played, t, more, u);
    actions := played + more;
  }

  lemma PlayedOut(s: State, t: State, p: nat, l: nat, x: nat, w: nat, ms: seq<Status>)
    requires Playing(t, p, l, x, w) && Played(s, t, l, ms) && s.loops[l].consumed == []
    requires s.chans[s.loops[l].chan].sent == []
    requires !Harmless(ReAdds(ms, s.loops[l].start))
    ensures DueTwice(t, x) && t.chans[s.loops[l].chan].sent == ms
  {
    assert [] + ms == ms;
  }

  lemma AttemptBegins(s: State, p: nat, l: nat, x: nat, w: nat)
    requires CalmInv(s) && Attempt(s, p, l, x) && CanWork(s, w) && s.chans[s.producers[p].chan].sent == []
    ensures Sound(s) && Playing(s, p, l, x, w)
    ensures s.loops[l].consumed == [] && s.loops[l].start == s.chans[s.producers[p].chan].start
  {
    assert AttemptOk(s, l) && FollowsAt(s, l);
  }

  // ---------- an instance ----------

  function AskNow(): Status { WithRetry(NewEventProcessStatus()) }
  function AskLater(): Status { AskNow().(retryLater := true) }

  const FIRST_ATTEMPT := [Sync(0), Inform, Dispatch(0)]

  lemma AttemptStarts() returns (s: State)
    ensures AllEnabled(Initial(1), FIRST_ATTEMPT, Calm) && Run(Initial(1), FIRST_ATTEMPT, Calm) == s
    ensures Leads(Initial(1), FIRST_ATTEMPT, s)
    ensures Attempt(s, 0, 0, 0) && CanWork(s, 0) && s.producers[0].chan == 0 && s.chans[0].sent == [] && s.chans[0].start == 0
  {
    var a := Step(Initial(1), Sync(0));
    var b := Step(a, Inform);
    assert b.queue.items == [0];
    s := Step(b, Dispatch(0));
    assert FIRST_ATTEMPT[1..] == [Inform, Dispatch(0)] && FIRST_ATTEMPT[1..][1..] == [Dispatch(0)];
    assert [Dispatch(0)][1..] == [];
  }

  lemma BothGranted()
    ensures !Harmless(ReAdds([AskNow(), AskLater()], 0))
  {
    assert [AskNow(), AskLater()][..1] == [AskNow()] && [AskNow()][..0] == [];
    var readds := ReAdds([AskNow(), AskLater()], 0);
    assert readds == [false] + [true] && readds[1];
  }

  // From the start: the first attempt of the first item asks for a retry twice,
  // the second time for later, and a handler ends up with a closed channel.
  lemma AskingTwicePanics() returns (actions: seq<Action>, q: nat)
    ensures AllEnabled(Initial(1), actions, Free)
    ensures var u := Run(Initial(1), actions, Free);
            Panics(u, q) && u.chans != [] && u.chans[0].sent == [AskNow(), AskLater()]
  {
    hide AllEnabled, Run, Safe, Connected, ReAdds;
    var s := AttemptStarts();
    InitialCalm(1);
    RunCalm(Initial(1), FIRST_ATTEMPT);
    BothGranted();
    var more;
    more, q := UnrestPanics(s, 0, 0, 0, 0, [AskNow(), AskLater()]);
    Chained(Initial(1), FIRST_ATTEMPT, s, more, Run(s, more, Free));
    actions := FIRST_ATTEMPT + more;
  }
}
