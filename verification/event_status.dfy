// Statuses handlers send, and what the status loop does with each.
module EventStatus {
  import opened Wrappers

  const DEFAULT_MAX_RETRY_COUNT := 5
  const BUFFER_SIZE := 5

  datatype Kind =
    | CreateChild | Skip | Retry | MaxRetryReached
    | Completed | Failure | Processing | PartialCompleted

  datatype Status = Status(kind: Kind, retry: bool, maxRetryCount: int, retryLater: bool,
                           retryCount: int, message: map<string, string>, childChan: Option<nat>)

  function NewEventProcessStatus(): Status {
    Status(Completed, false, DEFAULT_MAX_RETRY_COUNT, false, 0, map[], None)
  }

  function WithStatus(s: Status, kind: Kind): Status { s.(kind := kind) }
  function WithRetry(s: Status): Status { s.(retry := true, kind := Retry) }

  // What the loop does on receiving a status, given the item's retry count.
  datatype Effect =
    | NewChild(chan: Option<nat>)
    | Silent
    | Notify(status: Status)
    | NotifyAndRetry(status: Status, later: bool)

  function EffectOf(m: Status, retryCount: nat): Effect {
    if m.kind == CreateChild then NewChild(m.childChan)
    else if m.kind == Skip then Silent
    else if (m.kind == Completed || m.kind == Failure || m.kind == PartialCompleted) && !m.retry then Notify(m)
    else if m.retry && retryCount < m.maxRetryCount then NotifyAndRetry(m.(retryCount := retryCount), m.retryLater)
    else if m.retry && retryCount >= m.maxRetryCount then
      Notify(m.(retryCount := retryCount, kind := MaxRetryReached))
    else Notify(m)
  }

  predicate Reports(m: Status) { m.kind != CreateChild && m.kind != Skip }

  // The status is a request to run the event again.
  predicate AsksRetry(m: Status) { m.retry && Reports(m) }

  // ---------- one loop over everything one channel delivers ----------

  // The item's retry count after the statuses.
  function CountAfter(ms: seq<Status>, start: nat): nat {
    if ms == [] then start
    else
      var r := CountAfter(ms[..|ms| - 1], start);
      if EffectOf(ms[|ms| - 1], r).NotifyAndRetry? then r + 1 else r
  }

  // The statuses handed to the callback.
  function CallbacksOf(ms: seq<Status>, start: nat): seq<Status> {
    if ms == [] then []
    else
      var r := CountAfter(ms[..|ms| - 1], start);
      CallbacksOf(ms[..|ms| - 1], start)
      + match EffectOf(ms[|ms| - 1], r)
        case Notify(st) => [st]
        case NotifyAndRetry(st, _) => [st]
        case _ => []
  }

  function Reporting(ms: seq<Status>): nat {
    if ms == [] then 0
    else Reporting(ms[..|ms| - 1]) + if Reports(ms[|ms| - 1]) then 1 else 0
  }

  function Asks(ms: seq<Status>): nat {
    if ms == [] then 0
    else Asks(ms[..|ms| - 1]) + if AsksRetry(ms[|ms| - 1]) then 1 else 0
  }

  // Every status that is neither Skip nor CreateChild reaches the callback once.
  lemma {:induction false} OneCallbackEach(ms: seq<Status>, start: nat)
    ensures |CallbacksOf(ms, start)| == Reporting(ms)
    decreases |ms|
  {
    if ms != [] { OneCallbackEach(ms[..|ms| - 1], start); }
  }

  lemma {:induction false} AsksAppend(ms: seq<Status>, ns: seq<Status>)
    ensures Asks(ms + ns) == Asks(ms) + Asks(ns)
    decreases |ns|
  {
    if ns == [] {
      assert ms + ns == ms;
    } else {
      AsksAppend(ms, ns[..|ns| - 1]);
      assert (ms + ns)[..|ms + ns| - 1] == ms + ns[..|ns| - 1];
    }
  }

  // ---------- what the callback gets ----------

  // The callback's answer to a reporting status, with the item's retry count: the
  // status itself, but for a request, which carries the count and, once the count
  // has reached the limit, another kind.
  predicate RightAnswer(m: Status, c: Status, count: nat) {
    if !m.retry then c == m
    else if count < m.maxRetryCount then c == m.(retryCount := count)
    else c == m.(retryCount := count, kind := MaxRetryReached)
  }

  // The requests granted among the answers.
  function Grants(cs: seq<Status>): nat {
    if cs == [] then 0
    else
      var c := cs[|cs| - 1];
      Grants(cs[..|cs| - 1]) + if c.retry && c.retryCount < c.maxRetryCount then 1 else 0
  }

  // The j-th reporting status has the j-th answer, and there are no others. An
  // item's retry count is raised by every request granted.
  ghost predicate AnsweredInOrder(ms: seq<Status>, cs: seq<Status>, start: nat) {
    |cs| == Reporting(ms)
    && forall i :: 0 <= i < |ms| && ms[i].kind != CreateChild && ms[i].kind != Skip ==>
         Reporting(ms[..i]) < |cs|
         && RightAnswer(ms[i], cs[Reporting(ms[..i])], start + Grants(cs[..Reporting(ms[..i])]))
  }

  lemma LastAnswered(ms: seq<Status>, start: nat)
    requires ms != []
    ensures var n, r := |ms| - 1, CountAfter(ms[..|ms| - 1], start);
            var cs, before := CallbacksOf(ms, start), CallbacksOf(ms[..n], start);
            && (Reports(ms[n]) ==> |cs| == |before| + 1 && cs[..|before|] == before && RightAnswer(ms[n], cs[|before|], r))
            && (!Reports(ms[n]) ==> cs == before)
            && CountAfter(ms, start) == r + if ms[n].retry && Reports(ms[n]) && r < ms[n].maxRetryCount then 1 else 0
  {
  }

  lemma {:induction false} CountIsGrants(ms: seq<Status>, start: nat)
    ensures CountAfter(ms, start) == start + Grants(CallbacksOf(ms, start))
    decreases |ms|
  {
    if ms != [] {
      LastAnswered(ms, start);
      CountIsGrants(ms[..|ms| - 1], start);
      hide CallbacksOf, CountAfter;
    }
  }

  lemma {:induction false} AnswerAt(ms: seq<Status>, i: nat, start: nat)
    requires i < |ms| && Reports(ms[i])
    ensures var cs, before := CallbacksOf(ms, start), CallbacksOf(ms[..i], start);
            |before| < |cs| && cs[..|before|] == before && RightAnswer(ms[i], cs[|before|], CountAfter(ms[..i], start))
    decreases |ms|
  {
    hide CallbacksOf, CountAfter;
    var n := |ms| - 1;
    LastAnswered(ms, start);
    if i < n {
      AnswerAt(ms[..n], i, start);
      assert ms[..n][..i] == ms[..i];
      var cs, before, first := CallbacksOf(ms, start), CallbacksOf(ms[..n], start), CallbacksOf(ms[..i], start);
      assert cs[..|before|] == before;
      assert cs[..|first|] == before[..|first|];
    }
  }

  lemma CallbacksAnswer(ms: seq<Status>, start: nat)
    ensures AnsweredInOrder(ms, CallbacksOf(ms, start), start)
    ensures CountAfter(ms, start) == start + Grants(CallbacksOf(ms, start))
  {
    hide CallbacksOf, CountAfter, RightAnswer, Grants, Reporting;
    var cs := CallbacksOf(ms, start);
    OneCallbackEach(ms, start);
    CountIsGrants(ms, start);
    forall i | 0 <= i < |ms| && ms[i].kind != CreateChild && ms[i].kind != Skip
      ensures Reporting(ms[..i]) < |cs| && RightAnswer(ms[i], cs[Reporting(ms[..i])], start + Grants(cs[..Reporting(ms[..i])]))
    {
      AnswerAt(ms, i, start);
      OneCallbackEach(ms[..i], start);
      CountIsGrants(ms[..i], start);
    }
  }

  // ---------- requests granted ----------

  // How often, and how, the loop puts the item back.
  function ReAdds(ms: seq<Status>, start: nat): seq<bool> {
    if ms == [] then []
    else
      var r := CountAfter(ms[..|ms| - 1], start);
      ReAdds(ms[..|ms| - 1], start)
      + match EffectOf(ms[|ms| - 1], r)
        case NotifyAndRetry(_, later) => [later]
        case _ => []
  }

  // No two requests granted with one of them for later.
  predicate Harmless(readds: seq<bool>) { |readds| <= 1 || true !in readds }

  lemma {:induction false} ReAddsConcat(a: seq<Status>, b: seq<Status>, start: nat)
    ensures CountAfter(a + b, start) == CountAfter(b, CountAfter(a, start))
    ensures ReAdds(a + b, start) == ReAdds(a, start) + ReAdds(b, CountAfter(a, start))
    decreases |b|
  {
    if b == [] {
      assert a + b == a;
    } else {
      ReAddsConcat(a, b[..|b| - 1], start);
      assert (a + b)[..|a + b| - 1] == a + b[..|b| - 1];
    }
  }

  lemma ReAddsSnoc(ms: seq<Status>, m: Status, start: nat)
    ensures CountAfter(ms + [m], start)
         == CountAfter(ms, start) + if EffectOf(m, CountAfter(ms, start)).NotifyAndRetry? then 1 else 0
    ensures ReAdds(ms + [m], start) == ReAdds(ms, start) + match EffectOf(m, CountAfter(ms, start))
                                                           case NotifyAndRetry(_, later) => [later]
                                                           case _ => []
  {
    assert (ms + [m])[..|ms + [m]| - 1] == ms;
  }

  // Only requests are granted.
  lemma {:induction false} GrantsAreAsked(ms: seq<Status>, start: nat)
    ensures |ReAdds(ms, start)| <= Asks(ms)
    decreases |ms|
  {
    if ms != [] { GrantsAreAsked(ms[..|ms| - 1], start); }
  }

  lemma HarmlessPart(a: seq<bool>, b: seq<bool>)
    requires Harmless(a + b)
    ensures Harmless(a)
  {
    if true in a { assert true in a + b; }
  }

  // ---------- the loop itself ----------

  class InformerCacheObj {
    var retryCount: nat
    var statusChan: nat   // the channel the next attempt is given

    constructor (statusChan: nat)
      ensures retryCount == 0 && this.statusChan == statusChan
    {
      retryCount := 0;
      this.statusChan := statusChan;
    }
  }

  function Children(ms: seq<Status>): seq<Option<nat>> {
    if ms == [] then []
    else Children(ms[..|ms| - 1])
         + if ms[|ms| - 1].kind == CreateChild then [ms[|ms| - 1].childChan] else []
  }

  lemma NoStatus(start: nat)
    ensures CallbacksOf([], start) == [] && Children([]) == [] && ReAdds([], start) == [] && CountAfter([], start) == start
  {
  }

  lemma NextStatus(ms: seq<Status>, i: nat, start: nat)
    requires i < |ms|
    ensures var m, effect := ms[i], EffectOf(ms[i], CountAfter(ms[..i], start));
            && Children(ms[..i + 1]) == Children(ms[..i]) + (if m.kind == CreateChild then [m.childChan] else [])
            && CountAfter(ms[..i + 1], start) == CountAfter(ms[..i], start) + (if effect.NotifyAndRetry? then 1 else 0)
            && ReAdds(ms[..i + 1], start) == ReAdds(ms[..i], start) + (if effect.NotifyAndRetry? then [effect.later] else [])
            && CallbacksOf(ms[..i + 1], start) == CallbacksOf(ms[..i], start)
                 + (if effect.Notify? || effect.NotifyAndRetry? then [effect.status] else [])
  {
    hide EffectOf;
    assert ms[..i + 1][..i] == ms[..i];
  }

  function Creating(ms: seq<Status>): nat {
    if ms == [] then 0 else Creating(ms[..|ms| - 1]) + if ms[|ms| - 1].kind == CreateChild then 1 else 0
  }

  // The channel of each announcement, in order.
  predicate ChildrenInOrder(ms: seq<Status>, children: seq<Option<nat>>) {
    |children| == Creating(ms)
    && forall i :: 0 <= i < |ms| && ms[i].kind == CreateChild ==>
         Creating(ms[..i]) < |children| && children[Creating(ms[..i])] == ms[i].childChan
  }

  lemma {:induction false} EveryChild(ms: seq<Status>)
    ensures ChildrenInOrder(ms, Children(ms))
    decreases |ms|
  {
    if ms != [] {
      var n := |ms| - 1;
      EveryChild(ms[..n]);
      forall i | 0 <= i < n && ms[i].kind == CreateChild
        ensures Creating(ms[..i]) < |Children(ms)| && Children(ms)[Creating(ms[..i])] == ms[i].childChan
      {
        assert ms[..n][..i] == ms[..i] && ms[..n][i] == ms[i];
      }
    }
  }

  // One re-add for every request granted, in order, at once or later as it asks.
  ghost predicate ReAddedInOrder(cs: seq<Status>, readds: seq<bool>) {
    |readds| == Grants(cs)
    && forall j :: 0 <= j < |cs| && cs[j].retry && cs[j].retryCount < cs[j].maxRetryCount ==>
         Grants(cs[..j]) < |readds| && readds[Grants(cs[..j])] == cs[j].retryLater
  }

  lemma LastReAdded(ms: seq<Status>, start: nat)
    requires ms != []
    ensures var n, r := |ms| - 1, CountAfter(ms[..|ms| - 1], start);
            ReAdds(ms, start) == ReAdds(ms[..n], start)
              + if ms[n].retry && Reports(ms[n]) && r < ms[n].maxRetryCount then [ms[n].retryLater] else []
  {
  }

  lemma MoreReAdded(before: seq<Status>, c: Status, readds: seq<bool>)
    requires ReAddedInOrder(before, readds)
    ensures ReAddedInOrder(before + [c], readds + if c.retry && c.retryCount < c.maxRetryCount then [c.retryLater] else [])
  {
    var cs := before + [c];
    assert cs[..|before|] == before;
    forall j | 0 <= j < |before| ensures cs[..j] == before[..j] && cs[j] == before[j] {}
  }

  lemma {:induction false} EveryGrantReAdds(ms: seq<Status>, start: nat)
    ensures ReAddedInOrder(CallbacksOf(ms, start), ReAdds(ms, start))
    decreases |ms|
  {
    if ms != [] {
      hide CallbacksOf, CountAfter, ReAdds, ReAddedInOrder;
      EveryGrantReAdds(ms[..|ms| - 1], start);
      LastAnswered(ms, start);
      LastReAdded(ms, start);
      var before, cs := CallbacksOf(ms[..|ms| - 1], start), CallbacksOf(ms, start);
      if Reports(ms[|ms| - 1]) {
        assert cs == before + [cs[|before|]];
        MoreReAdded(before, cs[|before|], ReAdds(ms[..|ms| - 1], start));
      } else {
        assert ReAdds(ms[..|ms| - 1], start) + [] == ReAdds(ms[..|ms| - 1], start);
      }
    }
  }

  // Ranges over the channel until it is closed; ms is all it delivers. Channel
  // numbers from nextChan on are unused.
  method HandleStatus(item: InformerCacheObj, ms: seq<Status>, nextChan: nat)
    returns (callbacks: seq<Status>, children: seq<Option<nat>>, readds: seq<bool>)
    modifies item
    ensures AnsweredInOrder(ms, callbacks, old(item.retryCount)) && callbacks == CallbacksOf(ms, old(item.retryCount))
    ensures ChildrenInOrder(ms, children)
    ensures ReAddedInOrder(callbacks, readds) && readds == ReAdds(ms, old(item.retryCount))
    ensures item.retryCount == CountAfter(ms, old(item.retryCount)) == old(item.retryCount) + |readds|
    ensures item.statusChan == if readds == [] then old(item.statusChan) else nextChan + |readds| - 1
  {
    callbacks, children, readds := [], [], [];
    NoStatus(old(item.retryCount));
    assert ms[..0] == [];
    hide CallbacksOf, Children, ReAdds, CountAfter, AnsweredInOrder, ReAddedInOrder, ChildrenInOrder;
    for i := 0 to |ms|
      invariant callbacks == CallbacksOf(ms[..i], old(item.retryCount))
      invariant children == Children(ms[..i])
      invariant readds == ReAdds(ms[..i], old(item.retryCount))
      invariant item.retryCount == CountAfter(ms[..i], old(item.retryCount)) == old(item.retryCount) + |readds|
      invariant item.statusChan == if readds == [] then old(item.statusChan) else nextChan + |readds| - 1
    {
      NextStatus(ms, i, old(item.retryCount));
      var m := ms[i];
      if m.kind == CreateChild {
        children := children + [m.childChan];
      } else if m.kind == Skip {
      } else if (m.kind == Completed || m.kind == Failure || m.kind == PartialCompleted) && !m.retry {
        callbacks := callbacks + [m];
      } else if m.retry && item.retryCount < m.maxRetryCount {
        callbacks := callbacks + [m.(retryCount := item.retryCount)];
        item.retryCount := item.retryCount + 1;
        item.statusChan := nextChan + |readds|;
        readds := readds + [m.retryLater];
      } else if m.retry && item.retryCount >= m.maxRetryCount {
        callbacks := callbacks + [m.(retryCount := item.retryCount, kind := MaxRetryReached)];
      } else {
        callbacks := callbacks + [m];
      }
    }
    assert ms[..|ms|] == ms;
    CallbacksAnswer(ms, old(item.retryCount));
    EveryGrantReAdds(ms, old(item.retryCount));
    EveryChild(ms);
  }
}
