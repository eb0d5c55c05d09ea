// Status channels as handlers use them, and the fan-out of one event into child
// events, one for each traffic config it concerns.
module FanOut {
  import opened Wrappers
  import opened Text
  import opened Iteration
  import opened EventStatus
  import opened TrafficConfigs
  import opened Dependencies

  // ---------- channels ----------

  datatype Message = Message(kind: Kind, child: StatusChan?)

  class StatusChan {
    var sent: seq<Message>
    var closed: bool

    constructor ()
      ensures sent == [] && !closed
    {
      sent, closed := [], false;
    }

    // Sending on a closed channel panics.
    method Put(m: Message)
      requires !closed
      modifies this
      ensures sent == old(sent) + [m] && !closed
    {
      sent := sent + [m];
    }

    // So does closing it again.
    method Close()
      requires !closed
      modifies this
      ensures sent == old(sent) && closed
    {
      closed := true;
    }
  }

  const SKIP := Message(Skip, null)

  // Without a channel nothing is sent.
  method Send(kind: Kind, ch: StatusChan?) returns (r: Kind)
    requires ch != null ==> !ch.closed
    modifies ch
    ensures r == kind
    ensures ch != null ==> ch.sent == old(ch.sent) + [Message(kind, null)] && !ch.closed
  {
    if ch != null { ch.Put(Message(kind, null)); }
    r := kind;
  }

  method SendClose(kind: Kind, ch: StatusChan?) returns (r: Kind)
    requires ch != null ==> !ch.closed
    modifies ch
    ensures r == kind
    ensures ch != null ==> ch.sent == old(ch.sent) + [Message(kind, null)] && ch.closed
  {
    if ch != null {
      ch.Put(Message(kind, null));
      ch.Close();
    }
    r := kind;
  }

  method SkipClose(kind: Kind, ch: StatusChan?) returns (r: Kind)
    requires ch != null ==> !ch.closed
    modifies ch
    ensures r == if ch == null then kind else Skip
    ensures ch != null ==> ch.sent == old(ch.sent) + [SKIP] && ch.closed
  {
    r := kind;
    if ch != null {
      r := Skip;
      ch.Put(SKIP);
      ch.Close();
    }
  }

  method CreateChildEvent(ch: StatusChan?) returns (child: StatusChan?)
    requires ch != null ==> !ch.closed
    modifies ch
    ensures ch == null ==> child == null
    ensures ch != null ==>
      child != null && fresh(child) && child.sent == [] && !child.closed
      && ch.sent == old(ch.sent) + [Message(CreateChild, child)] && !ch.closed
  {
    child := null;
    if ch != null {
      child := new StatusChan();
      ch.Put(Message(CreateChild, child));
    }
  }

  // ---------- handling one traffic config ----------

  datatype Settings = Settings(readOnly: bool, warmedUp: bool)

  // Every way through ends in one Skip and one close. What processing does to
  // the clusters does not touch the channel.
  method Updated(tc: TrafficConfig, s: Settings, ch: StatusChan?) returns (r: Kind, processed: bool)
    requires ch != null ==> !ch.closed
    modifies ch
    ensures processed <==> !tc.disabled && !tc.ignored && !s.readOnly && s.warmedUp
    ensures ch != null ==> ch.sent == old(ch.sent) + [SKIP] && ch.closed
  {
    processed := false;
    if tc.disabled || tc.ignored {
      r := SkipClose(Completed, ch);
      return;
    }
    if s.readOnly {
      r := SkipClose(Completed, ch);
      return;
    }
    if !s.warmedUp {
      r := SkipClose(Completed, ch);
      return;
    }
    processed := true;
    r := SkipClose(Completed, ch);
  }

  method Added(tc: TrafficConfig, s: Settings, cache: TrafficConfigCache, ch: StatusChan?)
    returns (r: Kind, processed: bool)
    requires ch != null ==> !ch.closed
    modifies ch, cache
    ensures processed <==> !tc.disabled && !tc.ignored && !s.readOnly && s.warmedUp
    ensures cache.cache == Handled(old(cache.cache), Event.Added(tc))
    ensures ch != null ==> ch.sent == old(ch.sent) + [SKIP] && ch.closed
  {
    processed := false;
    if tc.disabled || tc.ignored {
      r := SkipClose(Completed, ch);
      return;
    }
    cache.Add(tc);
    if s.readOnly {
      r := SkipClose(Completed, ch);
      return;
    }
    if !s.warmedUp {
      r := SkipClose(Completed, ch);
      return;
    }
    processed := true;
    r := SkipClose(Completed, ch);
  }

  // A delete is processed even for a disabled or ignored config.
  method Deleted(tc: TrafficConfig, s: Settings, cache: TrafficConfigCache, ch: StatusChan?)
    returns (r: Kind, processed: bool)
    requires ch != null ==> !ch.closed
    modifies ch, cache
    ensures processed <==> !s.readOnly && s.warmedUp
    ensures cache.cache == Handled(old(cache.cache), Event.Deleted(tc))
    ensures ch != null ==> ch.sent == old(ch.sent) + [SKIP] && ch.closed
  {
    processed := false;
    cache.Delete(tc);
    if s.readOnly {
      r := SkipClose(Completed, ch);
      return;
    }
    if !s.warmedUp {
      r := SkipClose(Completed, ch);
      return;
    }
    processed := true;
    r := SkipClose(Completed, ch);
  }

  // ---------- fanning out ----------

  // A config to handle again: for the identity itself, or for a dependent of it.
  datatype Target = Target(dependent: bool, identity: string, env: string)

  function TargetsIn(m: Entries, dependent: bool, identity: string): set<Target> {
    set env <- ConfigsOf(m, identity) :: Target(dependent, identity, env)
  }

  function DependentsOf(r: Relation, identity: string): set<string> {
    if ToLower(identity) in r then r[ToLower(identity)] else {}
  }

  // The cache of dependents holds nothing else.
  predicate LowerDependents(r: Relation) { forall x <- r :: forall d <- r[x] :: IsLower(d) }

  lemma LinkKeepsLower(r: Relation, a: string, b: string)
    requires LowerDependents(r)
    ensures LowerDependents(Link(r, a, b))
  {
    ToLowerIsLower(b);
  }

  function DependentTargets(m: Entries, dependents: set<string>): set<Target> {
    set d <- dependents, t <- TargetsIn(m, true, ToLower(d)) :: t
  }

  function Wanted(m: Entries, r: Relation, identity: string): set<Target> {
    TargetsIn(m, false, ToLower(identity)) + DependentTargets(m, DependentsOf(r, identity))
  }

  // As the dependents are gone through.
  function Planned(m: Entries, identity: string, dependents: seq<string>): multiset<Target> {
    if dependents == [] then multiset(TargetsIn(m, false, ToLower(identity)))
    else Planned(m, identity, dependents[..|dependents| - 1])
         + multiset(TargetsIn(m, true, ToLower(dependents[|dependents| - 1])))
  }

  lemma OneMoreDependent(m: Entries, identity: string, before: seq<string>, d: string)
    requires d !in before && IsLower(d) && forall e <- before :: IsLower(e)
    ensures DependentTargets(m, Elements(before + [d])) == DependentTargets(m, Elements(before)) + TargetsIn(m, true, ToLower(d))
    ensures TargetsIn(m, false, ToLower(identity)) + DependentTargets(m, Elements(before)) !! TargetsIn(m, true, ToLower(d))
  {
    assert Elements(before + [d]) == Elements(before) + {d};
    var earlier, more := DependentTargets(m, Elements(before)), TargetsIn(m, true, ToLower(d));
    LowerFixed(d);
    forall t | t in earlier ensures t !in more { DependentOf(m, before, t); }
  }

  lemma {:induction false} PlannedIsWanted(m: Entries, identity: string, dependents: seq<string>)
    requires NoRepeats(dependents) && forall d <- dependents :: IsLower(d)
    ensures Planned(m, identity, dependents)
         == multiset(TargetsIn(m, false, ToLower(identity)) + DependentTargets(m, Elements(dependents)))
    decreases |dependents|
  {
    var self := TargetsIn(m, false, ToLower(identity));
    if dependents == [] {
      assert self + DependentTargets(m, Elements(dependents)) == self;
    } else {
      var k := |dependents| - 1;
      var before, d := dependents[..k], dependents[k];
      PlannedIsWanted(m, identity, before);
      assert dependents == before + [d];
      OneMoreDependent(m, identity, before, d);
      var earlier, more := DependentTargets(m, Elements(before)), TargetsIn(m, true, ToLower(d));
      DisjointUnion(self + earlier, more);
      assert self + (earlier + more) == self + earlier + more;
    }
  }

  lemma AllPlanned(m: Entries, r: Relation, identity: string, dependents: seq<string>)
    requires LowerDependents(r) && NoRepeats(dependents) && Elements(dependents) == DependentsOf(r, identity)
    ensures Planned(m, identity, dependents) == multiset(Wanted(m, r, identity))
  {
    forall d <- dependents ensures IsLower(d) { assert d in Elements(dependents); }
    PlannedIsWanted(m, identity, dependents);
  }

  lemma DependentOf(m: Entries, dependents: seq<string>, t: Target)
    requires t in DependentTargets(m, Elements(dependents)) && forall d <- dependents :: IsLower(d)
    ensures t.identity in dependents
  {
    var d :| d in Elements(dependents) && t in TargetsIn(m, true, ToLower(d));
    LowerFixed(d);
  }

  // Read off the caches: a config of the identity itself, or of one of its dependents.
  predicate WantedBy(m: Entries, r: Relation, identity: string, t: Target) {
    && t.identity in m && t.env in m[t.identity]
    && if t.dependent then ToLower(identity) in r && t.identity in r[ToLower(identity)] else t.identity == ToLower(identity)
  }

  lemma WantedIff(m: Entries, r: Relation, identity: string, t: Target)
    requires LowerDependents(r)
    ensures t in Wanted(m, r, identity) <==> WantedBy(m, r, identity, t)
  {
    if t.dependent && t.identity in DependentsOf(r, identity) {
      LowerFixed(t.identity);
      assert t in TargetsIn(m, true, ToLower(t.identity)) <==> t.env in ConfigsOf(m, t.identity);
    }
    if t in DependentTargets(m, DependentsOf(r, identity)) {
      var d :| d in DependentsOf(r, identity) && t in TargetsIn(m, true, ToLower(d));
      LowerFixed(d);
    }
  }

  // The identities that want the target.
  function Wanting(m: Entries, r: Relation, identities: seq<string>, t: Target): set<nat> {
    set i: nat | i < |identities| && WantedBy(m, r, identities[i], t)
  }

  lemma OneMoreWanting(m: Entries, r: Relation, identities: seq<string>, t: Target)
    requires identities != []
    ensures |Wanting(m, r, identities, t)|
         == |Wanting(m, r, identities[..|identities| - 1], t)| + if WantedBy(m, r, identities[|identities| - 1], t) then 1 else 0
  {
    hide WantedBy;
    var n := |identities| - 1;
    var before, after := Wanting(m, r, identities[..n], t), Wanting(m, r, identities, t);
    forall i: nat ensures i in after <==> i in before || (i == n && WantedBy(m, r, identities[n], t)) {
      if i < n { assert identities[..n][i] == identities[i]; }
    }
    assert n !in before;
    hide Wanting;
    if WantedBy(m, r, identities[n], t) {
      assert after == before + {n};
    } else {
      assert after == before;
    }
  }

  lemma {:induction false} WantedAsOften(m: Entries, r: Relation, identities: seq<string>, t: Target)
    requires LowerDependents(r)
    ensures AllWanted(m, r, identities)[t] == |Wanting(m, r, identities, t)|
    decreases |identities|
  {
    if identities == [] {
      assert Wanting(m, r, identities, t) == {};
    } else {
      hide WantedBy, Wanted, Wanting, LowerDependents;
      var n := |identities| - 1;
      WantedAsOften(m, r, identities[..n], t);
      WantedIff(m, r, identities[n], t);
      OneMoreWanting(m, r, identities, t);
    }
  }

  function AllWanted(m: Entries, r: Relation, identities: seq<string>): multiset<Target> {
    if identities == [] then multiset{}
    else AllWanted(m, r, identities[..|identities| - 1]) + multiset(Wanted(m, r, identities[|identities| - 1]))
  }

  // ---------- the events sent ----------

  function Announcements(children: seq<StatusChan>): (r: seq<Message>)
    ensures |r| == |children|
  {
    seq(|children|, i requires 0 <= i < |children| => Message(CreateChild, children[i]))
  }

  // Since before, the channel got just the announcements of the children.
  predicate Announced(ch: StatusChan, before: seq<Message>, children: seq<StatusChan>)
    reads ch
  {
    ch.sent == before + Announcements(children) && !ch.closed
  }

  lemma AnnouncedMore(ch: StatusChan, before: seq<Message>, a: seq<StatusChan>, b: seq<StatusChan>)
    requires Announced(ch, before + Announcements(a), b)
    ensures Announced(ch, before, a + b)
  {
    assert Announcements(a + b) == Announcements(a) + Announcements(b);
    assert before + Announcements(a) + Announcements(b) == before + (Announcements(a) + Announcements(b));
  }

  // Every child was sent one Skip and closed, once.
  predicate AllSkipped(children: seq<StatusChan>)
    reads children
  {
    forall c <- children :: c.closed && c.sent == [SKIP]
  }

  // A config handed to a child's handler, for one dependent only if a source is given.
  datatype Handling = Handling(tc: TrafficConfig, source: Option<string>, processed: bool)

  // The target's own config was handled; a dependent's for this identity only.
  predicate HandledRight(m: Entries, s: Settings, identity: string, t: Target, h: Handling) {
    && t.identity in m && t.env in m[t.identity] && h.tc == m[t.identity][t.env]
    && h.source == (if t.dependent then Some(identity) else None)
    && (h.processed <==> !h.tc.disabled && !h.tc.ignored && !s.readOnly && s.warmedUp)
  }

  predicate HandledEach(m: Entries, s: Settings, identity: string, targets: seq<Target>, handled: seq<Handling>) {
    |handled| == |targets| && forall k :: 0 <= k < |targets| ==> HandledRight(m, s, identity, targets[k], handled[k])
  }

  predicate HandledForSome(m: Entries, s: Settings, identities: seq<string>, targets: seq<Target>, handled: seq<Handling>) {
    && |handled| == |targets|
    && forall k :: 0 <= k < |targets| ==> exists i <- identities :: HandledRight(m, s, i, targets[k], handled[k])
  }

  lemma HandledBoth(m: Entries, s: Settings, identity: string, t1: seq<Target>, h1: seq<Handling>, t2: seq<Target>, h2: seq<Handling>)
    requires HandledEach(m, s, identity, t1, h1) && HandledEach(m, s, identity, t2, h2)
    ensures HandledEach(m, s, identity, t1 + t2, h1 + h2)
  {
    hide HandledRight;
  }

  lemma HandledMore(m: Entries, s: Settings, before: seq<string>, identity: string, t1: seq<Target>, h1: seq<Handling>,
                    t2: seq<Target>, h2: seq<Handling>)
    requires HandledForSome(m, s, before, t1, h1) && HandledEach(m, s, identity, t2, h2)
    ensures HandledForSome(m, s, before + [identity], t1 + t2, h1 + h2)
  {
    hide HandledRight;
    var all := before + [identity];
    assert all[|before|] == identity && forall i <- before :: i in all;
    forall k | 0 <= k < |t1 + t2| ensures exists i <- all :: HandledRight(m, s, i, (t1 + t2)[k], (h1 + h2)[k]) {
      if k < |t1| {
        var i :| i in before && HandledRight(m, s, i, t1[k], h1[k]);
        assert HandledRight(m, s, i, (t1 + t2)[k], (h1 + h2)[k]);
      } else {
        assert HandledRight(m, s, identity, (t1 + t2)[k], (h1 + h2)[k]);
      }
    }
  }

  // One finished child for each target, and each wanted target once.
  predicate FannedOut(targets: seq<Target>, children: seq<StatusChan>, wanted: multiset<Target>)
    reads children
  {
    |targets| == |children| && NoRepeats(children) && AllSkipped(children) && multiset(targets) == wanted
  }

  lemma FannedOutMore(t1: seq<Target>, c1: seq<StatusChan>, w1: multiset<Target>,
                      t2: seq<Target>, c2: seq<StatusChan>, w2: multiset<Target>)
    requires FannedOut(t1, c1, w1) && FannedOut(t2, c2, w2) && forall c <- c1 :: c !in c2
    ensures FannedOut(t1 + t2, c1 + c2, w1 + w2)
  {
    NoRepeatsConcat(c1, c2);
  }

  lemma EachOnce(targets: seq<Target>, dependent: bool, identity: string, envs: seq<string>)
    requires |targets| == |envs| && NoRepeats(envs)
    requires forall k :: 0 <= k < |envs| ==> targets[k] == Target(dependent, identity, envs[k])
    ensures multiset(targets) == multiset(set env <- Elements(envs) :: Target(dependent, identity, env))
  {
    NoRepeatsElements(targets);
    var all := set env <- Elements(envs) :: Target(dependent, identity, env);
    forall t | t in all ensures t in targets {
      var k :| 0 <= k < |envs| && envs[k] == t.env;
      assert targets[k] == t;
    }
    assert all == Elements(targets);
  }

  lemma OneHandled(m: Entries, s: Settings, identity: string, t: Target, h: Handling)
    requires HandledRight(m, s, identity, t, h)
    ensures HandledEach(m, s, identity, [t], [h])
  {
  }

  // One config is handled as a child event.
  method TriggerOne(tc: TrafficConfig, s: Settings, ch: StatusChan) returns (child: StatusChan, processed: bool)
    requires !ch.closed
    modifies ch
    ensures fresh(child) && child.closed && child.sent == [SKIP]
    ensures Announced(ch, old(ch.sent), [child])
    ensures processed <==> !tc.disabled && !tc.ignored && !s.readOnly && s.warmedUp
  {
    var made := CreateChildEvent(ch);
    child := made;
    var r;
    r, processed := Updated(tc, s, child);
  }

  // One child event per environment the identity has a config for.
  method TriggerConfigs(m: Entries, dependent: bool, caller: string, identity: string, s: Settings, ch: StatusChan)
    returns (targets: seq<Target>, children: seq<StatusChan>, handled: seq<Handling>)
    requires !ch.closed
    modifies ch
    ensures fresh(children) && FannedOut(targets, children, multiset(TargetsIn(m, dependent, identity)))
    ensures Announced(ch, old(ch.sent), children)
    ensures HandledEach(m, s, caller, targets, handled)
  {
    targets, children, handled := [], [], [];
    assert HandledEach(m, s, caller, targets, handled);
    hide HandledEach;
    var tcs := ConfigsOf(m, identity);
    var envs := InSomeOrder(tcs.Keys);
    for i := 0 to |envs|
      invariant |targets| == i == |children|
      invariant forall k :: 0 <= k < i ==> targets[k] == Target(dependent, identity, envs[k])
      invariant fresh(children) && AllSkipped(children) && NoRepeats(children)
      invariant Announced(ch, old(ch.sent), children)
      invariant HandledEach(m, s, caller, targets, handled)
    {
      assert envs[i] in Elements(envs);
      var child, processed := TriggerOne(tcs[envs[i]], s, ch);
      AnnouncedMore(ch, old(ch.sent), children, [child]);
      var target := Target(dependent, identity, envs[i]);
      var handling := Handling(tcs[envs[i]], if dependent then Some(caller) else None, processed);
      OneHandled(m, s, caller, target, handling);
      HandledBoth(m, s, caller, targets, handled, [target], [handling]);
      targets, children, handled := targets + [target], children + [child], handled + [handling];
    }
    EachOnce(targets, dependent, identity, envs);
    assert (set env <- Elements(envs) :: Target(dependent, identity, env)) == TargetsIn(m, dependent, identity);
  }

  // Every wanted target once, and no other.
  ghost predicate EachWantedOnce(m: Entries, r: Relation, identity: string, targets: seq<Target>) {
    forall t :: multiset(targets)[t] == if WantedBy(m, r, identity, t) then 1 else 0
  }

  lemma EachWanted(m: Entries, r: Relation, identity: string, targets: seq<Target>)
    requires LowerDependents(r) && multiset(targets) == multiset(Wanted(m, r, identity))
    ensures EachWantedOnce(m, r, identity, targets)
  {
    forall t ensures multiset(targets)[t] == if WantedBy(m, r, identity, t) then 1 else 0 { WantedIff(m, r, identity, t); }
  }

  // The channel must be there: without one the child would have no context to
  // log to.
  method TriggerForIdentity(m: Entries, r: Relation, identity: string, s: Settings, ch: StatusChan)
    returns (targets: seq<Target>, children: seq<StatusChan>, handled: seq<Handling>)
    requires !ch.closed && LowerDependents(r)
    modifies ch
    ensures fresh(children) && FannedOut(targets, children, multiset(Wanted(m, r, identity)))
    ensures EachWantedOnce(m, r, identity, targets)
    ensures Announced(ch, old(ch.sent), children)
    ensures HandledEach(m, s, identity, targets, handled)
  {
    hide HandledEach, EachWantedOnce, TargetsIn, WantedBy, Wanted, AllSkipped, NoRepeats, LowerDependents;
    targets, children, handled := TriggerConfigs(m, false, identity, ToLower(identity), s, ch);
    var dependents := InSomeOrder(DependentsOf(r, identity));
    for i := 0 to |dependents|
      invariant fresh(children) && FannedOut(targets, children, Planned(m, identity, dependents[..i]))
      invariant Announced(ch, old(ch.sent), children)
      invariant HandledEach(m, s, identity, targets, handled)
    {
      ghost var planned := Planned(m, identity, dependents[..i]);
      assert Planned(m, identity, dependents[..i + 1]) == planned + multiset(TargetsIn(m, true, ToLower(dependents[i]))) by {
        assert dependents[..i + 1][..i] == dependents[..i];
      }
      var moreTargets, moreChildren, moreHandled := TriggerConfigs(m, true, identity, ToLower(dependents[i]), s, ch);
      AnnouncedMore(ch, old(ch.sent), children, moreChildren);
      FannedOutMore(targets, children, planned,
                    moreTargets, moreChildren, multiset(TargetsIn(m, true, ToLower(dependents[i]))));
      HandledBoth(m, s, identity, targets, handled, moreTargets, moreHandled);
      targets := targets + moreTargets;
      children := children + moreChildren;
      handled := handled + moreHandled;
    }
    assert dependents[..|dependents|] == dependents;
    AllPlanned(m, r, identity, dependents);
    EachWanted(m, r, identity, targets);
  }

  // What is so once the identities up to now have been gone through.
  predicate Triggered(ch: StatusChan, before: seq<Message>, m: Entries, r: Relation, s: Settings, identities: seq<string>,
                      targets: seq<Target>, children: seq<StatusChan>, handled: seq<Handling>)
    reads ch, children
  {
    && FannedOut(targets, children, AllWanted(m, r, identities)) && Announced(ch, before, children)
    && HandledForSome(m, s, identities, targets, handled)
  }

  lemma NothingTriggered(ch: StatusChan, m: Entries, r: Relation, s: Settings)
    requires !ch.closed
    ensures Triggered(ch, ch.sent, m, r, s, [], [], [], [])
  {
  }

  lemma AllWantedMore(m: Entries, r: Relation, identities: seq<string>, identity: string)
    ensures AllWanted(m, r, identities + [identity]) == AllWanted(m, r, identities) + multiset(Wanted(m, r, identity))
  {
    hide Wanted;
    assert (identities + [identity])[..|identities|] == identities;
  }

  lemma MoreTriggered(ch: StatusChan, before: seq<Message>, m: Entries, r: Relation, s: Settings, identities: seq<string>,
                      identity: string, t1: seq<Target>, c1: seq<StatusChan>, h1: seq<Handling>,
                      t2: seq<Target>, c2: seq<StatusChan>, h2: seq<Handling>)
    requires FannedOut(t1, c1, AllWanted(m, r, identities)) && HandledForSome(m, s, identities, t1, h1)
    requires FannedOut(t2, c2, multiset(Wanted(m, r, identity))) && HandledEach(m, s, identity, t2, h2)
    requires Announced(ch, before + Announcements(c1), c2) && forall c <- c1 :: c !in c2
    ensures Triggered(ch, before, m, r, s, identities + [identity], t1 + t2, c1 + c2, h1 + h2)
  {
    AllWantedMore(m, r, identities, identity);
    AnnouncedMore(ch, before, c1, c2);
    FannedOutMore(t1, c1, AllWanted(m, r, identities), t2, c2, multiset(Wanted(m, r, identity)));
    HandledMore(m, s, identities, identity, t1, h1, t2, h2);
  }

  // One more identity, after those done.
  method TriggerNext(m: Entries, r: Relation, identity: string, s: Settings, ch: StatusChan,
                     ghost before: seq<Message>, ghost done: seq<string>,
                     ghost t1: seq<Target>, ghost c1: seq<StatusChan>, ghost h1: seq<Handling>)
    returns (t2: seq<Target>, c2: seq<StatusChan>, h2: seq<Handling>)
    requires LowerDependents(r) && ch !in c1
    requires Triggered(ch, before, m, r, s, done, t1, c1, h1)
    modifies ch
    ensures fresh(c2) && Triggered(ch, before, m, r, s, done + [identity], t1 + t2, c1 + c2, h1 + h2)
  {
    hide HandledForSome, HandledEach, EachWantedOnce, Wanted, AllWanted, LowerDependents;
    t2, c2, h2 := TriggerForIdentity(m, r, identity, s, ch);
    MoreTriggered(ch, before, m, r, s, done, identity, t1, c1, h1, t2, c2, h2);
  }

  method TriggerEach(m: Entries, r: Relation, identities: seq<string>, s: Settings, ch: StatusChan)
    returns (targets: seq<Target>, children: seq<StatusChan>, handled: seq<Handling>)
    requires !ch.closed && LowerDependents(r)
    modifies ch
    ensures fresh(children) && Triggered(ch, old(ch.sent), m, r, s, identities, targets, children, handled)
  {
    NothingTriggered(ch, m, r, s);
    Prefixes(identities);
    hide Triggered, LowerDependents;
    ghost var before := ch.sent;
    targets, children, handled := [], [], [];
    for i := 0 to |identities|
      invariant fresh(children)
      invariant Triggered(ch, before, m, r, s, identities[..i], targets, children, handled)
    {
      var moreTargets, moreChildren, moreHandled :=
        TriggerNext(m, r, identities[i], s, ch, before, identities[..i], targets, children, handled);
      targets, children, handled := targets + moreTargets, children + moreChildren, handled + moreHandled;
    }
  }

  // A triggered event: the children of every identity, then one Skip, then one
  // close; a target comes once for every identity that wants it. A new workload
  // triggers its own identity; a dependency update triggers each destination it added.
  method TriggerAll(m: Entries, r: Relation, identities: seq<string>, s: Settings, ch: StatusChan)
    returns (targets: seq<Target>, children: seq<StatusChan>, handled: seq<Handling>)
    requires !ch.closed && LowerDependents(r)
    modifies ch
    ensures fresh(children) && FannedOut(targets, children, AllWanted(m, r, identities))
    ensures forall t :: multiset(targets)[t] == |Wanting(m, r, identities, t)|
    ensures ch.sent == old(ch.sent) + Announcements(children) + [SKIP] && ch.closed
    ensures HandledForSome(m, s, identities, targets, handled)
  {
    targets, children, handled := TriggerEach(m, r, identities, s, ch);
    var _ := SkipClose(Completed, ch);
    forall t ensures multiset(targets)[t] == |Wanting(m, r, identities, t)| { WantedAsOften(m, r, identities, t); }
  }
}
