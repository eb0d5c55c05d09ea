// How channels, handlers and status loops hang together in every run: each
// channel has one handler and at most one loop, and loses nothing; an item due
// for another attempt has a channel nobody has been given yet.
module ControllerWiring {
  import opened Wrappers
  import opened WorkQueue
  import opened EventStatus
  import opened Controller
  import opened ControllerSafety

  // ---------- channels and the two goroutines on each ----------

  predicate ProducersOk(s: State) {
    (forall i :: 0 <= i < |s.producers| ==>
      s.producers[i].chan < |s.chans| && s.chans[s.producers[i].chan].hasProducer
      && (s.producers[i].open <==> !s.chans[s.producers[i].chan].closed))
    && (forall i, j :: 0 <= i < j < |s.producers| ==> s.producers[i].chan != s.producers[j].chan)
  }

  ghost predicate ProducersKnown(s: State) {
    forall c :: 0 <= c < |s.chans| && s.chans[c].hasProducer ==>
      exists i :: 0 <= i < |s.producers| && s.producers[i].chan == c
  }

  predicate ChanOk(c: Chan) {
    |c.buf| <= |c.sent| && (forall k :: 0 <= k < |c.buf| ==> c.buf[k] == c.sent[|c.sent| - |c.buf| + k])
    && (!c.hasProducer ==> !c.closed && c.sent == [] && !c.hasLoop && !c.forChild)
    && (c.hasProducer && !c.hasLoop ==> c.forChild && c.buf == c.sent)
  }

  predicate ChanOkAt(s: State, i: nat)
    requires i < |s.chans|
  {
    ChanOk(s.chans[i])
  }

  predicate ChansOk(s: State) { forall i: nat :: i < |s.chans| ==> ChanOkAt(s, i) }

  // What the loop took off and what is still buffered is what was sent.
  predicate Follows(l: Loop, c: Chan) {
    c.hasLoop && c.sent == l.consumed + c.buf && (!l.running ==> c.closed && c.buf == [])
  }

  predicate FollowsAt(s: State, i: nat)
    requires i < |s.loops|
  {
    s.loops[i].chan < |s.chans| && Follows(s.loops[i], s.chans[s.loops[i].chan])
  }

  predicate LoopsFollow(s: State) {
    (forall i: nat :: i < |s.loops| ==> FollowsAt(s, i))
    && (forall i, j :: 0 <= i < j < |s.loops| ==> s.loops[i].chan != s.loops[j].chan)
  }

  ghost predicate LoopsKnown(s: State) {
    forall c :: 0 <= c < |s.chans| && s.chans[c].hasLoop ==> exists i :: 0 <= i < |s.loops| && s.loops[i].chan == c
  }

  // ---------- children and who announced them ----------

  // Status k of channel p, if it announces a child, announces one of its own,
  // whose loop runs once the status has been taken off.
  predicate AnnouncesOk(s: State, p: nat, k: nat)
    requires p < |s.chans| && k < |s.chans[p].sent|
  {
    var m := s.chans[p].sent[k];
    m.kind == CreateChild ==>
      && m.childChan.Some? && p < m.childChan.value < |s.chans|
      && var c := s.chans[m.childChan.value];
         c.forChild && c.parent == p && c.index == k && (c.hasLoop <==> k < |s.chans[p].sent| - |s.chans[p].buf|)
  }

  predicate AnnouncementsOk(s: State) {
    forall p: nat, k: nat :: p < |s.chans| && k < |s.chans[p].sent| ==> AnnouncesOk(s, p, k)
  }

  predicate ChildOk(s: State, c: nat)
    requires c < |s.chans|
  {
    var ch := s.chans[c];
    ch.forChild ==> ch.parent < c && ch.index < |s.chans[ch.parent].sent|
                    && s.chans[ch.parent].sent[ch.index].kind == CreateChild
                    && s.chans[ch.parent].sent[ch.index].childChan == Some(c)
  }

  predicate ChildrenOk(s: State) { forall c: nat :: c < |s.chans| ==> ChildOk(s, c) }

  ghost predicate Wired(s: State) {
    ProducersOk(s) && ProducersKnown(s) && ChansOk(s) && LoopsFollow(s) && LoopsKnown(s)
    && AnnouncementsOk(s) && ChildrenOk(s)
  }

  // ---------- items due for another attempt ----------

  predicate Pending(s: State, x: nat) { x in s.queue.dirty || x in s.delayed }

  predicate Runs(s: State, i: nat, x: nat) { i < |s.loops| && s.loops[i].running && s.loops[i].item == x }

  predicate Fresh(s: State, c: nat) { c < |s.chans| && !s.chans[c].hasProducer }

  // A due item has a channel nobody has been given yet.
  ghost predicate FreshWhenDue(s: State) {
    (forall x: nat :: x < |s.items| && Pending(s, x) ==> Fresh(s, s.items[x].chan))
    && (forall x: nat, y: nat :: x < y < |s.items| && Pending(s, x) && Pending(s, y) ==> s.items[x].chan != s.items[y].chan)
  }

  // Due at once, or later, but not both.
  predicate DueOnce(s: State) { forall x <- s.queue.dirty :: x !in s.delayed }

  ghost predicate Connected(s: State) { Wired(s) && FreshWhenDue(s) }

  // ---------- wiring: loops that change nothing but what they call back ----------

  predicate SameLoop(a: Loop, b: Loop) {
    a.item == b.item && a.chan == b.chan && a.running == b.running && a.consumed == b.consumed
  }

  predicate SameWires(s: State, s': State) {
    s'.chans == s.chans && s'.producers == s.producers && |s'.loops| == |s.loops|
    && forall i :: 0 <= i < |s.loops| ==> SameLoop(s.loops[i], s'.loops[i])
  }

  lemma StillWired(s: State, s': State)
    requires Wired(s) && SameWires(s, s')
    ensures Wired(s')
  {
    forall p: nat, k: nat | p < |s'.chans| && k < |s'.chans[p].sent| ensures AnnouncesOk(s', p, k) {
      assert AnnouncesOk(s, p, k);
    }
    forall c: nat | c < |s'.chans| ensures ChildOk(s', c) { assert ChildOk(s, c); }
    SameChansOk(s, s');
    forall c | 0 <= c < |s'.chans| && s'.chans[c].hasLoop ensures exists i :: 0 <= i < |s'.loops| && s'.loops[i].chan == c {
      var i :| 0 <= i < |s.loops| && s.loops[i].chan == c;
      assert SameLoop(s.loops[i], s'.loops[i]);
    }
    assert LoopsFollow(s') by {
      forall i: nat | i < |s'.loops| ensures FollowsAt(s', i) {
        assert SameLoop(s.loops[i], s'.loops[i]) && FollowsAt(s, i);
      }
    }
  }

  // ---------- wiring: what a change to a channel cannot disturb ----------

  predicate SameContent(a: Chan, b: Chan) {
    a.sent == b.sent && a.buf == b.buf && a.forChild == b.forChild && a.parent == b.parent && a.index == b.index
  }

  lemma KeptAnnouncements(s: State, s': State)
    requires AnnouncementsOk(s) && ChildrenOk(s) && |s.chans| <= |s'.chans|
    requires forall i :: 0 <= i < |s.chans| ==>
      SameContent(s.chans[i], s'.chans[i]) && (s.chans[i].forChild ==> s'.chans[i].hasLoop == s.chans[i].hasLoop)
    requires forall i :: |s.chans| <= i < |s'.chans| ==> s'.chans[i].sent == [] && !s'.chans[i].forChild
    ensures AnnouncementsOk(s') && ChildrenOk(s')
  {
    forall p: nat, k: nat | p < |s'.chans| && k < |s'.chans[p].sent| ensures AnnouncesOk(s', p, k) {
      assert AnnouncesOk(s, p, k);
    }
    forall c: nat | c < |s'.chans| ensures ChildOk(s', c) { if c < |s.chans| { assert ChildOk(s, c); } }
  }

  lemma SameChansOk(s: State, s': State)
    requires ChansOk(s) && s'.chans == s.chans
    ensures ChansOk(s')
  {
    forall i: nat | i < |s'.chans| ensures ChanOkAt(s', i) { assert ChanOkAt(s, i); }
  }

  lemma KeptLoops(s: State, s': State)
    requires LoopsFollow(s) && LoopsKnown(s) && |s.chans| <= |s'.chans| && s'.loops == s.loops
    requires forall i :: 0 <= i < |s.chans| ==>
      s'.chans[i].hasLoop == s.chans[i].hasLoop && s'.chans[i].sent == s.chans[i].sent && s'.chans[i].buf == s.chans[i].buf
      && (s.chans[i].closed ==> s'.chans[i].closed)
    requires forall i :: |s.chans| <= i < |s'.chans| ==> !s'.chans[i].hasLoop
    ensures LoopsFollow(s') && LoopsKnown(s')
  {
    forall i: nat | i < |s'.loops| ensures FollowsAt(s', i) { assert FollowsAt(s, i); }
  }

  lemma KeptProducers(s: State, s': State)
    requires ProducersOk(s) && ProducersKnown(s) && |s.chans| <= |s'.chans| && s'.producers == s.producers
    requires forall i :: 0 <= i < |s.chans| ==>
      s'.chans[i].hasProducer == s.chans[i].hasProducer && s'.chans[i].closed == s.chans[i].closed
    requires forall i :: |s.chans| <= i < |s'.chans| ==> !s'.chans[i].hasProducer
    ensures ProducersOk(s') && ProducersKnown(s')
  {
  }

  // ---------- wiring: a channel is made ----------

  lemma NewChanWired(s: State, s': State)
    requires Wired(s) && s'.chans == s.chans + [NewChan()]
    requires s'.producers == s.producers && s'.loops == s.loops
    ensures Wired(s')
  {
    NewChanOk(s, s');
    KeptAnnouncements(s, s');
    KeptLoops(s, s');
    KeptProducers(s, s');
  }

  lemma NewChanOk(s: State, s': State)
    requires ChansOk(s) && s'.chans == s.chans + [NewChan()]
    ensures ChansOk(s')
    ensures forall i :: 0 <= i < |s.chans| ==> s'.chans[i] == s.chans[i]
    ensures s'.chans[|s.chans|] == NewChan()
  {
    forall i: nat | i < |s'.chans| ensures ChanOkAt(s', i) { if i < |s.chans| { assert ChanOkAt(s, i); } }
  }

  // ---------- wiring: channels change one at a time ----------

  // Channel d changes, but not who announced it or whether its loop is there.
  predicate Rewrites(s: State, s': State, d: nat) {
    d < |s.chans| && |s'.chans| >= |s.chans|
    && (forall i :: 0 <= i < |s.chans| && i != d ==> s'.chans[i] == s.chans[i])
    && (var a, b := s.chans[d], s'.chans[d];
        a.forChild == b.forChild && a.parent == b.parent && a.index == b.index && a.hasLoop == b.hasLoop
        && a.sent <= b.sent)
  }

  lemma RewrittenAnnouncements(s: State, s': State, d: nat)
    requires AnnouncementsOk(s) && ChildrenOk(s) && Rewrites(s, s', d)
    requires var a, b := s.chans[d], s'.chans[d];
             |b.buf| <= |b.sent| && |a.buf| <= |a.sent|
             && |a.sent| - |a.buf| <= |b.sent| - |b.buf| <= |a.sent|
             && forall k :: |a.sent| - |a.buf| <= k < |b.sent| - |b.buf| ==> a.sent[k].kind != CreateChild
    ensures forall p: nat, k: nat :: p < |s.chans| && k < |s.chans[p].sent| ==> AnnouncesOk(s', p, k)
    ensures forall c: nat :: c < |s.chans| ==> ChildOk(s', c)
  {
    forall p: nat, k: nat | p < |s.chans| && k < |s.chans[p].sent| ensures AnnouncesOk(s', p, k) {
      assert AnnouncesOk(s, p, k);
      assert s'.chans[p].sent[k] == s.chans[p].sent[k];
    }
    forall c: nat | c < |s.chans| ensures ChildOk(s', c) {
      assert ChildOk(s, c);
    }
  }

  lemma SendWired(s: State, p: nat, m: Status)
    requires Wired(s) && CanSend(s, p) && MaySend(s, p, m, Free)
    ensures Wired(DoSend(s, p, m))
  {
    var s' := DoSend(s, p, m);
    var d := s.producers[p].chan;
    assert ChanOkAt(s, d);
    assert ChansOk(s') by { PutChansOk(s, s', d); }
    assert AnnouncementsOk(s') && ChildrenOk(s') by { SendAnnouncements(s, s', d, m); }
    assert LoopsFollow(s') && LoopsKnown(s') by { PutFollows(s, s', d, m); }
    assert ProducersOk(s') && ProducersKnown(s') by { KeptProducers(s, s'); }
  }

  lemma PutChansOk(s: State, s': State, d: nat)
    requires ChansOk(s) && d < |s.chans| <= |s'.chans| && ChanOk(s'.chans[d])
    requires forall i :: 0 <= i < |s.chans| && i != d ==> s'.chans[i] == s.chans[i]
    requires forall i: nat :: |s.chans| <= i < |s'.chans| ==> ChanOkAt(s', i)
    ensures ChansOk(s')
  {
    forall i: nat | i < |s'.chans| ensures ChanOkAt(s', i) { if i < |s.chans| { assert ChanOkAt(s, i); } }
  }

  lemma SendAnnouncements(s: State, s': State, d: nat, m: Status)
    requires AnnouncementsOk(s) && ChildrenOk(s) && d < |s.chans| && |s.chans[d].buf| <= |s.chans[d].sent|
    requires s'.chans == s.chans[d := Put(s.chans[d], m)] && m.kind != CreateChild
    ensures AnnouncementsOk(s') && ChildrenOk(s')
  {
    RewrittenAnnouncements(s, s', d);
    forall p: nat, k: nat | p < |s'.chans| && k < |s'.chans[p].sent| ensures AnnouncesOk(s', p, k) {
      assert k < |s.chans[p].sent| || s'.chans[p].sent[k] == m;
    }
  }

  lemma PutFollows(s: State, s': State, d: nat, m: Status)
    requires LoopsFollow(s) && LoopsKnown(s) && s'.loops == s.loops
    requires d < |s.chans| <= |s'.chans| && !s.chans[d].closed && s'.chans[d] == Put(s.chans[d], m)
    requires forall i :: 0 <= i < |s.chans| && i != d ==> s'.chans[i] == s.chans[i]
    requires forall i :: |s.chans| <= i < |s'.chans| ==> !s'.chans[i].hasLoop
    ensures LoopsFollow(s') && LoopsKnown(s')
  {
    forall i: nat | i < |s'.loops| ensures FollowsAt(s', i) {
      var l := s.loops[i];
      assert FollowsAt(s, i);
      if l.chan == d {
        assert l.consumed + (s.chans[d].buf + [m]) == l.consumed + s.chans[d].buf + [m];
      }
    }
  }

  lemma SendChildWired(s: State, p: nat)
    requires Wired(s) && CanSend(s, p)
    ensures Wired(DoSendChild(s, p))
  {
    var s' := DoSendChild(s, p);
    var d := s.producers[p].chan;
    SendChildChans(s, s', p);
    assert !s.chans[d].closed;
    hide ChansOk, AnnouncementsOk, ChildrenOk, LoopsFollow, LoopsKnown, ProducersOk, ProducersKnown;
    SendChildAnnouncements(s, s', d);
    PutFollows(s, s', d, ChildStatus(|s.chans|));
    SendChildProducers(s, s', p);
  }

  lemma SendChildChans(s: State, s': State, p: nat)
    requires ChansOk(s) && CanSend(s, p) && s' == DoSendChild(s, p) && s.chans[s.producers[p].chan].hasProducer
    ensures ChansOk(s') && |s.chans[s.producers[p].chan].buf| <= |s.chans[s.producers[p].chan].sent|
  {
    assert ChanOkAt(s, s.producers[p].chan) && ChanOkAt(s', |s.chans|);
    PutChansOk(s, s', s.producers[p].chan);
  }

  lemma SendChildAnnouncements(s: State, s': State, d: nat)
    requires AnnouncementsOk(s) && ChildrenOk(s) && d < |s.chans| && |s.chans[d].buf| <= |s.chans[d].sent|
    requires s'.chans == s.chans[d := Put(s.chans[d], ChildStatus(|s.chans|))] + [NewChildChan(d, |s.chans[d].sent|)]
    ensures AnnouncementsOk(s') && ChildrenOk(s')
  {
    var n := |s.chans|;
    RewrittenAnnouncements(s, s', d);
    assert s'.chans[n] == NewChildChan(d, |s.chans[d].sent|);
    assert s'.chans[d].sent[|s.chans[d].sent|] == ChildStatus(n);
    forall p: nat, k: nat | p < |s'.chans| && k < |s'.chans[p].sent| ensures AnnouncesOk(s', p, k) {
      assert p < n && (k < |s.chans[p].sent| || (p == d && k == |s.chans[d].sent|));
    }
    forall c: nat | c < |s'.chans| ensures ChildOk(s', c) { assert c < n || c == n; }
  }

  // A producer more, on channel d.
  lemma MoreProducers(s: State, s': State, d: nat)
    requires ProducersKnown(s) && |s'.producers| == |s.producers| + 1 && s'.producers[|s.producers|].chan == d
    requires forall i :: 0 <= i < |s.producers| ==> s'.producers[i].chan == s.producers[i].chan
    requires forall c :: 0 <= c < |s'.chans| && c != d && s'.chans[c].hasProducer ==> c < |s.chans| && s.chans[c].hasProducer
    ensures ProducersKnown(s')
  {
    forall c | 0 <= c < |s'.chans| && s'.chans[c].hasProducer
      ensures exists i :: 0 <= i < |s'.producers| && s'.producers[i].chan == c
    {
      if c == d {
        assert s'.producers[|s.producers|].chan == c;
      } else {
        var i :| 0 <= i < |s.producers| && s.producers[i].chan == c;
        assert s'.producers[i].chan == c;
      }
    }
  }

  lemma SendChildProducers(s: State, s': State, p: nat)
    requires ProducersOk(s) && ProducersKnown(s) && CanSend(s, p) && s' == DoSendChild(s, p)
    ensures ProducersOk(s') && ProducersKnown(s')
  {
    hide ProducersKnown;
    MoreProducers(s, s', |s.chans|);
  }

  lemma CloseWired(s: State, p: nat)
    requires Wired(s) && p < |s.producers| && s.producers[p].open
    ensures Wired(DoClose(s, p))
  {
    var s' := DoClose(s, p);
    var d := s.producers[p].chan;
    assert ChanOkAt(s, d);
    assert ChansOk(s') by { PutChansOk(s, s', d); }
    assert AnnouncementsOk(s') && ChildrenOk(s') by { KeptAnnouncements(s, s'); }
    assert LoopsFollow(s') && LoopsKnown(s') by { KeptLoops(s, s'); }
    assert ProducersOk(s') && ProducersKnown(s') by { CloseProducers(s, s', p); }
  }

  lemma CloseProducers(s: State, s': State, p: nat)
    requires ProducersOk(s) && ProducersKnown(s) && p < |s.producers| && s.producers[p].open && s' == DoClose(s, p)
    ensures ProducersOk(s') && ProducersKnown(s')
  {
    forall c | 0 <= c < |s'.chans| && s'.chans[c].hasProducer
      ensures exists i :: 0 <= i < |s'.producers| && s'.producers[i].chan == c
    {
      var i :| 0 <= i < |s.producers| && s.producers[i].chan == c;
      assert s'.producers[i].chan == c;
    }
  }

  // ---------- wiring: an attempt starts ----------

  lemma LoopsHave(s: State)
    requires LoopsFollow(s)
    ensures forall i :: 0 <= i < |s.loops| ==> s.loops[i].chan < |s.chans| && s.chans[s.loops[i].chan].hasLoop
  {
    forall i: nat | i < |s.loops| ensures s.loops[i].chan < |s.chans| && s.chans[s.loops[i].chan].hasLoop {
      assert FollowsAt(s, i);
    }
  }

  lemma DispatchWired(s: State, w: nat)
    requires Wired(s) && Enabled(s, Dispatch(w), Free)
    requires Fresh(s, s.items[s.queue.items[0]].chan)
    ensures Wired(DoDispatch(s, w))
  {
    var s' := DoDispatch(s, w);
    var d := s.items[s.queue.items[0]].chan;
    DispatchShape(s, s', w);
    assert ChanOkAt(s, d);
    PutChansOk(s, s', d);
    KeptAnnouncements(s, s');
    DispatchProducers(s, s', w);
    DispatchFollows(s, s', w);
  }

  lemma DispatchProducers(s: State, s': State, w: nat)
    requires ProducersOk(s) && ProducersKnown(s) && Enabled(s, Dispatch(w), Free) && s' == DoDispatch(s, w)
    requires var c := s.chans[s.items[s.queue.items[0]].chan]; !c.hasProducer && !c.closed
    ensures ProducersOk(s') && ProducersKnown(s')
  {
    hide ProducersKnown;
    DispatchShape(s, s', w);
    MoreProducers(s, s', s.items[s.queue.items[0]].chan);
  }

  lemma DispatchFollows(s: State, s': State, w: nat)
    requires LoopsFollow(s) && LoopsKnown(s) && Enabled(s, Dispatch(w), Free) && s' == DoDispatch(s, w)
    requires var c := s.chans[s.items[s.queue.items[0]].chan]; !c.hasLoop && c.sent == c.buf
    ensures LoopsFollow(s') && LoopsKnown(s')
  {
    DispatchShape(s, s', w);
    LoopsHave(s);
    forall i: nat | i < |s'.loops| ensures FollowsAt(s', i) { if i < |s.loops| { assert FollowsAt(s, i); } }
    forall c | 0 <= c < |s'.chans| && s'.chans[c].hasLoop ensures exists i :: 0 <= i < |s'.loops| && s'.loops[i].chan == c {
      if c == s.items[s.queue.items[0]].chan {
        assert s'.loops[|s.loops|].chan == c;
      } else {
        var i :| 0 <= i < |s.loops| && s.loops[i].chan == c;
        assert s'.loops[i].chan == c;
      }
    }
  }

  // ---------- wiring: the status loop ----------

  lemma EndWired(s: State, l: nat)
    requires Wired(s) && CanEnd(s, l)
    ensures Wired(DoEnd(s, l))
  {
    var s' := DoEnd(s, l);
    EndShape(s, s', l);
    SameChansOk(s, s');
    KeptAnnouncements(s, s');
    KeptProducers(s, s');
    EndFollows(s, s', l);
  }

  lemma EndFollows(s: State, s': State, l: nat)
    requires LoopsFollow(s) && LoopsKnown(s) && CanEnd(s, l) && s' == DoEnd(s, l)
    ensures LoopsFollow(s') && LoopsKnown(s')
  {
    EndShape(s, s', l);
    forall i: nat | i < |s'.loops| ensures FollowsAt(s', i) { assert FollowsAt(s, i); }
    forall c | 0 <= c < |s'.chans| && s'.chans[c].hasLoop ensures exists i :: 0 <= i < |s'.loops| && s'.loops[i].chan == c {
      var i :| 0 <= i < |s.loops| && s.loops[i].chan == c;
      assert s'.loops[i].chan == c;
    }
  }

  lemma TakeFollows(s: State, l: nat)
    requires LoopsFollow(s) && LoopsKnown(s) && CanReceive(s, l)
    ensures LoopsFollow(DoTake(s, l)) && LoopsKnown(DoTake(s, l))
  {
    var s' := DoTake(s, l);
    var d := s.loops[l].chan;
    forall i: nat | i < |s'.loops| ensures FollowsAt(s', i) {
      assert FollowsAt(s, i);
      if i == l {
        var buf := s.chans[d].buf;
        assert s.loops[l].consumed + buf == s.loops[l].consumed + [buf[0]] + buf[1..];
      }
    }
    forall c | 0 <= c < |s'.chans| && s'.chans[c].hasLoop ensures exists i :: 0 <= i < |s'.loops| && s'.loops[i].chan == c {
      var i :| 0 <= i < |s.loops| && s.loops[i].chan == c;
      assert s'.loops[i].chan == c;
    }
  }

  // The status taken is the next one sent.
  lemma NextSent(s: State, l: nat)
    requires ChansOk(s) && CanReceive(s, l)
    ensures var c := s.chans[s.loops[l].chan];
            |c.buf| <= |c.sent| && c.sent[|c.sent| - |c.buf|] == c.buf[0]
            && (c.hasLoop ==> ChanOk(c.(buf := c.buf[1..])))
  {
    assert ChanOkAt(s, s.loops[l].chan);
  }

  lemma TakeWired(s: State, l: nat)
    requires Wired(s) && CanReceive(s, l) && s.chans[s.loops[l].chan].buf[0].kind != CreateChild
    ensures Wired(DoTake(s, l))
  {
    var s' := DoTake(s, l);
    var d := s.loops[l].chan;
    NextSent(s, l);
    assert FollowsAt(s, l);
    PutChansOk(s, s', d);
    RewrittenAnnouncements(s, s', d);
    TakeFollows(s, l);
    KeptProducers(s, s');
  }

  // The child's channel waits for a loop.
  lemma AdoptedWaits(s: State, l: nat)
    requires Wired(s) && CanReceive(s, l) && s.chans[s.loops[l].chan].buf[0].kind == CreateChild
    ensures var d := s.loops[l].chan; var m := s.chans[d].buf[0];
            m.childChan.Some? && d < m.childChan.value < |s.chans|
            && var c := s.chans[m.childChan.value];
               c.forChild && c.hasProducer && !c.hasLoop && c.buf == c.sent
               && c.parent == d && c.index == |s.chans[d].sent| - |s.chans[d].buf|
  {
    var d := s.loops[l].chan;
    NextSent(s, l);
    var k: nat := |s.chans[d].sent| - |s.chans[d].buf|;
    assert AnnouncesOk(s, d, k);
    assert ChanOkAt(s, s.chans[d].sent[k].childChan.value);
  }

  lemma AdoptWired(s: State, l: nat, n: nat)
    requires Wired(s) && CanReceive(s, l) && s.chans[s.loops[l].chan].buf[0].kind == CreateChild
    requires s.chans[s.loops[l].chan].buf[0].childChan == Some(n) && n < |s.chans|
    ensures Wired(DoAdopt(DoTake(s, l), s.loops[l].item, n))
  {
    var t := DoTake(s, l);
    var s' := DoAdopt(t, s.loops[l].item, n);
    var d := s.loops[l].chan;
    NextSent(s, l);
    AdoptedWaits(s, l);
    assert ChanOkAt(s, n);
    assert FollowsAt(s, l);
    AdoptChans(s, s', l, n);
    assert ChansOk(s') by { AdoptChansOk(s, s', d, n); }
    assert AnnouncementsOk(s') && ChildrenOk(s') by { AdoptAnnouncements(s, s', l, n); }
    assert LoopsFollow(s') && LoopsKnown(s') by {
      TakeFollows(s, l);
      AdoptFollows(t, s', s.loops[l].item, n);
    }
    assert ProducersOk(s') && ProducersKnown(s') by { KeptProducers(s, s'); }
  }

  lemma AdoptChans(s: State, s': State, l: nat, n: nat)
    requires CanReceive(s, l) && n < |s.chans| && n != s.loops[l].chan
    requires s' == DoAdopt(DoTake(s, l), s.loops[l].item, n)
    ensures |s'.chans| == |s.chans| && s'.producers == s.producers
    ensures var d := s.loops[l].chan;
            (forall i :: 0 <= i < |s.chans| && i != d && i != n ==> s'.chans[i] == s.chans[i])
            && s'.chans[d] == s.chans[d].(buf := s.chans[d].buf[1..]) && s'.chans[n] == s.chans[n].(hasLoop := true)
  {
  }

  lemma AdoptChansOk(s: State, s': State, d: nat, n: nat)
    requires ChansOk(s) && |s'.chans| == |s.chans| && d < |s.chans| && n < |s.chans|
    requires ChanOk(s'.chans[d]) && ChanOk(s'.chans[n])
    requires forall i :: 0 <= i < |s.chans| && i != d && i != n ==> s'.chans[i] == s.chans[i]
    ensures ChansOk(s')
  {
    forall i: nat | i < |s'.chans| ensures ChanOkAt(s', i) { assert ChanOkAt(s, i); }
  }

  lemma AdoptAnnouncements(s: State, s': State, l: nat, n: nat)
    requires AnnouncementsOk(s) && ChildrenOk(s) && CanReceive(s, l) && n < |s.chans|
    requires s'.chans == DoAdopt(DoTake(s, l), s.loops[l].item, n).chans
    requires var d := s.loops[l].chan;
             n != d && |s.chans[d].buf| <= |s.chans[d].sent|
             && s.chans[n].parent == d && s.chans[n].index == |s.chans[d].sent| - |s.chans[d].buf| && s.chans[n].forChild
             && s.chans[d].sent[s.chans[n].index].childChan == Some(n)
    ensures AnnouncementsOk(s') && ChildrenOk(s')
  {
    var d := s.loops[l].chan;
    forall p: nat, k: nat | p < |s'.chans| && k < |s'.chans[p].sent| ensures AnnouncesOk(s', p, k) {
      assert AnnouncesOk(s, p, k);
      assert s'.chans[p].sent[k] == s.chans[p].sent[k];
    }
    forall c: nat | c < |s'.chans| ensures ChildOk(s', c) { assert ChildOk(s, c); }
  }

  lemma AdoptFollows(t: State, s': State, x: nat, n: nat)
    requires LoopsFollow(t) && LoopsKnown(t) && x < |t.items| && n < |t.chans| && s' == DoAdopt(t, x, n)
    requires !t.chans[n].hasLoop && t.chans[n].buf == t.chans[n].sent
    ensures LoopsFollow(s') && LoopsKnown(s')
  {
    LoopsHave(t);
    forall i: nat | i < |s'.loops| ensures FollowsAt(s', i) { if i < |t.loops| { assert FollowsAt(t, i); } }
    forall c | 0 <= c < |s'.chans| && s'.chans[c].hasLoop ensures exists i :: 0 <= i < |s'.loops| && s'.loops[i].chan == c {
      if c == n {
        assert s'.loops[|t.loops|].chan == c;
      } else {
        var i :| 0 <= i < |t.loops| && t.loops[i].chan == c;
        assert s'.loops[i].chan == c;
      }
    }
  }

  // ---------- channels of due items ----------

  // Nothing becomes due and no channel is given away.
  lemma StillFresh(s: State, s': State)
    requires FreshWhenDue(s) && InBounds(s) && QueueHoldsInformerItems(s) && |s.items| <= |s'.items|
    requires forall x :: 0 <= x < |s.items| ==> s'.items[x].chan == s.items[x].chan
    requires forall x :: Pending(s', x) ==> Pending(s, x)
    requires forall c: nat :: Fresh(s, c) ==> Fresh(s', c)
    ensures FreshWhenDue(s')
  {
    assert forall x: nat :: Pending(s, x) ==> x < |s.items|;
    forall x: nat | x < |s'.items| && Pending(s', x) ensures Fresh(s', s'.items[x].chan) {
      assert Fresh(s, s.items[x].chan);
    }
  }

  lemma InformFresh(s: State)
    requires FreshWhenDue(s) && InBounds(s) && QueueHoldsInformerItems(s)
    ensures FreshWhenDue(DoInform(s))
  {
    var s' := DoInform(s);
    var n := |s.items|;
    assert forall x: nat :: x < n ==> s'.items[x] == s.items[x] && Pending(s', x) == Pending(s, x);
    assert forall c: nat :: c < |s.chans| ==> s'.chans[c] == s.chans[c];
    forall x: nat | x < |s'.items| && Pending(s', x) ensures Fresh(s', s'.items[x].chan) {
      if x < n { assert Fresh(s, s.items[x].chan); }
    }
  }

  lemma DispatchFresh(s: State, s': State, w: nat)
    requires FreshWhenDue(s) && QueueOk(s.queue) && Enabled(s, Dispatch(w), Free) && s' == DoDispatch(s, w)
    requires s.queue.items[0] !in s.delayed
    ensures FreshWhenDue(s')
    ensures forall y: nat :: Pending(s', y) <==> Pending(s, y) && y != s.queue.items[0]
  {
    var x := s.queue.items[0];
    GetOk(s.queue);
    DispatchShape(s, s', w);
    assert Pending(s, x);
    forall y: nat | y < |s'.items| && Pending(s', y) ensures Fresh(s', s'.items[y].chan) {
      assert Fresh(s, s.items[y].chan);
      assert s.items[y].chan != s.items[x].chan;
    }
  }

  lemma TakeKeepsFresh(s: State, l: nat)
    requires CanReceive(s, l)
    ensures forall c: nat :: Fresh(s, c) ==> Fresh(DoTake(s, l), c)
  {
  }

  // Granting a request makes its item due, with a channel just made.
  lemma RetryFresh(s: State, s': State, l: nat, st: Status, later: bool)
    requires FreshWhenDue(s) && InBounds(s) && QueueHoldsInformerItems(s) && CanReceive(s, l)
    requires s' == DoRetry(DoTake(s, l), l, s.loops[l].item, st, later)
    ensures FreshWhenDue(s')
  {
    var x := s.loops[l].item;
    RetryShape(s, s', l, st, later);
    RetryKeepsFresh(s, s', l, st, later);
    assert forall y: nat :: y != x ==> Pending(s', y) == Pending(s, y);
    forall y: nat | y < |s'.items| && Pending(s', y) ensures Fresh(s', s'.items[y].chan) {
      if y != x { assert Fresh(s, s.items[y].chan); }
    }
  }

  lemma RetryKeepsFresh(s: State, s': State, l: nat, st: Status, later: bool)
    requires CanReceive(s, l) && s' == DoRetry(DoTake(s, l), l, s.loops[l].item, st, later)
    ensures forall c: nat :: Fresh(s, c) ==> Fresh(s', c)
    ensures Fresh(s', |s.chans|)
  {
    TakeKeepsFresh(s, l);
    assert s'.chans[..|s.chans|] == DoTake(s, l).chans;
    forall c: nat | Fresh(s, c) ensures Fresh(s', c) { assert Fresh(DoTake(s, l), c); }
  }

  // ---------- every step ----------

  lemma NotifyConnected(s: State, l: nat)
    requires Safe(s) && Connected(s) && CanReceive(s, l)
    requires EffectOf(s.chans[s.loops[l].chan].buf[0], s.items[s.loops[l].item].retryCount).Notify?
    ensures Connected(DoReceive(s, l))
  {
    hide Wired, FreshWhenDue;
    var t, s' := DoTake(s, l), DoReceive(s, l);
    var m := s.chans[s.loops[l].chan].buf[0];
    NotifyShape(s, s', l, EffectOf(m, s.items[s.loops[l].item].retryCount).status, AsksRetry(m));
    assert Wired(s') by {
      TakeWired(s, l);
      StillWired(t, s');
    }
    assert FreshWhenDue(s') by {
      TakeKeepsFresh(s, l);
      StillFresh(s, s');
    }
  }

  lemma RetryConnected(s: State, l: nat)
    requires Safe(s) && Connected(s) && CanReceive(s, l)
    requires EffectOf(s.chans[s.loops[l].chan].buf[0], s.items[s.loops[l].item].retryCount).NotifyAndRetry?
    ensures Connected(DoReceive(s, l))
  {
    hide Wired, FreshWhenDue;
    var t, s' := DoTake(s, l), DoReceive(s, l);
    var x := s.loops[l].item;
    var effect := EffectOf(s.chans[s.loops[l].chan].buf[0], s.items[x].retryCount);
    assert Wired(s') by {
      TakeWired(s, l);
      var u := DoNotify(t, l, x, effect.status, false);
      StillWired(t, u);
      NewChanWired(u, s');
    }
    assert FreshWhenDue(s') by { RetryFresh(s, s', l, effect.status, effect.later); }
  }

  lemma SilentConnected(s: State, l: nat)
    requires Safe(s) && Connected(s) && CanReceive(s, l)
    requires EffectOf(s.chans[s.loops[l].chan].buf[0], s.items[s.loops[l].item].retryCount).Silent?
    ensures Connected(DoTake(s, l))
  {
    assert Wired(DoTake(s, l)) by { TakeWired(s, l); }
    assert FreshWhenDue(DoTake(s, l)) by {
      TakeKeepsFresh(s, l);
      StillFresh(s, DoTake(s, l));
    }
  }

  lemma AdoptConnected(s: State, l: nat)
    requires Safe(s) && Connected(s) && CanReceive(s, l)
    requires EffectOf(s.chans[s.loops[l].chan].buf[0], s.items[s.loops[l].item].retryCount).NewChild?
    ensures Connected(DoReceive(s, l))
  {
    hide Wired, FreshWhenDue;
    var s' := DoReceive(s, l);
    AdoptedWaits(s, l);
    var n := s.chans[s.loops[l].chan].buf[0].childChan.value;
    AdoptShape(s, s', l, n);
    assert Wired(s') by { AdoptWired(s, l, n); }
    assert FreshWhenDue(s') by { StillFresh(s, s'); }
  }

  lemma ReceiveConnected(s: State, l: nat)
    requires Safe(s) && Connected(s) && CanReceive(s, l)
    ensures Connected(DoReceive(s, l))
  {
    match EffectOf(s.chans[s.loops[l].chan].buf[0], s.items[s.loops[l].item].retryCount) {
      case NewChild(_) => AdoptConnected(s, l);
      case Silent => SilentConnected(s, l);
      case Notify(_) => NotifyConnected(s, l);
      case NotifyAndRetry(_, _) => RetryConnected(s, l);
    }
  }

  lemma DispatchConnected(s: State, w: nat)
    requires Safe(s) && Connected(s) && Enabled(s, Dispatch(w), Free) && s.queue.items[0] !in s.delayed
    ensures Connected(DoDispatch(s, w))
  {
    var x := s.queue.items[0];
    GetOk(s.queue);
    assert Pending(s, x) && Fresh(s, s.items[x].chan);
    assert Wired(DoDispatch(s, w)) by { DispatchWired(s, w); }
    assert FreshWhenDue(DoDispatch(s, w)) by { DispatchFresh(s, DoDispatch(s, w), w); }
  }

  lemma HandlerConnected(s: State, a: Action)
    requires Safe(s) && Connected(s) && Enabled(s, a, Free) && (a.Send? || a.SendChild? || a.Close?)
    ensures Connected(Step(s, a))
  {
    hide Wired, FreshWhenDue;
    assert Wired(Step(s, a)) by {
      match a {
        case Send(p, m) => SendWired(s, p, m);
        case SendChild(p) => SendChildWired(s, p);
        case Close(p) => CloseWired(s, p);
      }
    }
    assert FreshWhenDue(Step(s, a)) by { StillFresh(s, Step(s, a)); }
  }

  lemma EndConnected(s: State, l: nat)
    requires Safe(s) && Connected(s) && CanEnd(s, l)
    ensures Connected(DoEnd(s, l))
  {
    EndShape(s, DoEnd(s, l), l);
    assert Wired(DoEnd(s, l)) by { EndWired(s, l); }
    assert FreshWhenDue(DoEnd(s, l)) by { StillFresh(s, DoEnd(s, l)); }
  }

  lemma InformConnected(s: State)
    requires Safe(s) && Connected(s)
    ensures Connected(DoInform(s))
  {
    assert Wired(DoInform(s)) by { NewChanWired(s, DoInform(s)); }
    assert FreshWhenDue(DoInform(s)) by { InformFresh(s); }
  }

  // Workers and timers: the queue changes, and nothing becomes due.
  lemma QueueConnected(s: State, s': State)
    requires Safe(s) && Connected(s)
    requires s' == s.(queue := s'.queue, workers := s'.workers, delayed := s'.delayed)
    requires forall x :: Pending(s', x) ==> Pending(s, x)
    ensures Connected(s')
  {
    assert Wired(s') by { StillWired(s, s'); }
    assert FreshWhenDue(s') by { StillFresh(s, s'); }
  }

  lemma WorkerConnected(s: State, a: Action)
    requires Safe(s) && Connected(s) && Enabled(s, a, Free)
    requires !a.Inform? && !a.Dispatch? && !a.Receive? && !a.End? && !a.Send? && !a.SendChild? && !a.Close?
    ensures Connected(Step(s, a))
  {
    hide Safe, Connected;
    QueueConnected(s, Step(s, a));
  }

  // Whatever handlers send: all stays connected as long as no item is handed out
  // that is due again later as well.
  lemma StepConnected(s: State, a: Action)
    requires Safe(s) && Connected(s) && Enabled(s, a, Free)
    requires a.Dispatch? ==> s.queue.items[0] !in s.delayed
    ensures Connected(Step(s, a))
  {
    hide Safe, Connected, MaySend;
    match a {
      case Inform => InformConnected(s);
      case Dispatch(w) => DispatchConnected(s, w);
      case Receive(l) => ReceiveConnected(s, l);
      case End(l) => EndConnected(s, l);
      case Send(_, _) => HandlerConnected(s, a);
      case SendChild(_) => HandlerConnected(s, a);
      case Close(_) => HandlerConnected(s, a);
      case _ => WorkerConnected(s, a);
    }
  }
}
