// Who depends on whom, kept twice: dependencies and dependents live in two maps
// under two locks, and handlers write them one after the other.
module Dependencies {
  import opened Wrappers
  import opened Text
  import opened Iteration

  type Relation = map<string, set<string>>

  function Link(m: Relation, a: string, b: string): Relation {
    var i, j := ToLower(a), ToLower(b);
    m[i := (if i in m then m[i] else {}) + {j}]
  }

  function Unlink(m: Relation, a: string, b: string): Relation {
    var i, j := ToLower(a), ToLower(b);
    if i !in m then m
    else if m[i] - {j} == {} then m - {i}
    else m[i := m[i] - {j}]
  }

  predicate Linked(m: Relation, a: string, b: string) { a in m && b in m[a] }

  lemma LinkAt(m: Relation, a: string, b: string, x: string, y: string)
    ensures Linked(Link(m, a, b), x, y) <==> Linked(m, x, y) || (x == ToLower(a) && y == ToLower(b))
  {
  }

  lemma UnlinkAt(m: Relation, a: string, b: string, x: string, y: string)
    ensures Linked(Unlink(m, a, b), x, y) <==> Linked(m, x, y) && !(x == ToLower(a) && y == ToLower(b))
  {
    var i, j := ToLower(a), ToLower(b);
    if i in m && x == i && y in m[i] && y != j { assert y in m[i] - {j}; }
  }

  class IdentityDependency {
    var dependencies: Relation
    var dependents: Relation

    constructor ()
      ensures dependencies == map[] && dependents == map[]
    {
      dependencies, dependents := map[], map[];
    }

    method AddDependencyToIdentity(identity: string, dependency: string)
      modifies `dependencies
      ensures dependencies == Link(old(dependencies), identity, dependency)
    {
      var i, d := ToLower(identity), ToLower(dependency);
      if i in dependencies {
        dependencies := dependencies[i := dependencies[i] + {d}];
      } else {
        dependencies := dependencies[i := {d}];
        assert {} + {d} == {d};
      }
    }

    method AddDependentToIdentity(identity: string, dependent: string)
      modifies `dependents
      ensures dependents == Link(old(dependents), identity, dependent)
    {
      var i, d := ToLower(identity), ToLower(dependent);
      if i in dependents {
        dependents := dependents[i := dependents[i] + {d}];
      } else {
        dependents := dependents[i := {d}];
        assert {} + {d} == {d};
      }
    }

    method DeleteDependencyFromIdentity(identity: string, dependency: string)
      modifies `dependencies
      ensures dependencies == Unlink(old(dependencies), identity, dependency)
    {
      var i, d := ToLower(identity), ToLower(dependency);
      if i !in dependencies { return; }
      var rest := dependencies[i] - {d};
      dependencies := if |rest| == 0 then dependencies - {i} else dependencies[i := rest];
    }
  }

  // ---------- the handlers, uninterrupted ----------

  datatype Record = Record(source: string, destinations: seq<string>)

  function LinkAll(m: Relation, a: string, bs: seq<string>): Relation {
    if bs == [] then m else Link(LinkAll(m, a, bs[..|bs| - 1]), a, bs[|bs| - 1])
  }

  function LinkAllTo(m: Relation, bs: seq<string>, a: string): Relation {
    if bs == [] then m else Link(LinkAllTo(m, bs[..|bs| - 1], a), bs[|bs| - 1], a)
  }

  lemma {:induction false} LinkAllAt(m: Relation, a: string, bs: seq<string>, x: string, y: string)
    ensures Linked(LinkAll(m, a, bs), x, y) <==> Linked(m, x, y) || (x == ToLower(a) && exists b <- bs :: y == ToLower(b))
    decreases |bs|
  {
    if bs != [] {
      var k := |bs| - 1;
      LinkAllAt(m, a, bs[..k], x, y);
      LinkAt(LinkAll(m, a, bs[..k]), a, bs[k], x, y);
      assert bs == bs[..k] + [bs[k]];
    }
  }

  lemma {:induction false} LinkAllToAt(m: Relation, bs: seq<string>, a: string, x: string, y: string)
    ensures Linked(LinkAllTo(m, bs, a), y, x) <==> Linked(m, y, x) || (x == ToLower(a) && exists b <- bs :: y == ToLower(b))
    decreases |bs|
  {
    if bs != [] {
      var k := |bs| - 1;
      LinkAllToAt(m, bs[..k], a, x, y);
      LinkAt(LinkAllTo(m, bs[..k], a), bs[k], a, y, x);
      assert bs == bs[..k] + [bs[k]];
    }
  }

  method Added(cache: IdentityDependency, r: Record)
    modifies cache
    ensures r.source == "" ==> cache.dependencies == old(cache.dependencies) && cache.dependents == old(cache.dependents)
    ensures r.source != "" ==> cache.dependencies == LinkAll(old(cache.dependencies), r.source, r.destinations)
    ensures r.source != "" ==> cache.dependents == LinkAllTo(old(cache.dependents), r.destinations, r.source)
  {
    if |r.source| == 0 { return; }
    for i := 0 to |r.destinations|
      invariant cache.dependencies == LinkAll(old(cache.dependencies), r.source, r.destinations[..i])
      invariant cache.dependents == LinkAllTo(old(cache.dependents), r.destinations[..i], r.source)
    {
      assert r.destinations[..i + 1][..i] == r.destinations[..i];
      cache.AddDependencyToIdentity(r.source, r.destinations[i]);
      cache.AddDependentToIdentity(r.destinations[i], r.source);
    }
    assert r.destinations[..|r.destinations|] == r.destinations;
  }

  // Returns the destinations whose traffic configs are to be handled again:
  // those the old record did not have, each once, in no particular order.
  method Updated(cache: IdentityDependency, r: Record, was: Option<Record>, warmedUp: bool)
    returns (triggered: seq<string>)
    modifies cache
    ensures r.source == "" ==> cache.dependencies == old(cache.dependencies) && cache.dependents == old(cache.dependents)
    ensures r.source != "" ==> cache.dependencies == LinkAll(old(cache.dependencies), r.source, r.destinations)
    ensures r.source != "" ==> cache.dependents == LinkAllTo(old(cache.dependents), r.destinations, r.source)
    ensures NoRepeats(triggered)
    ensures Elements(triggered)
         == if r.source == "" || !warmedUp then {}
            else Elements(r.destinations) - (if was.Some? then Elements(was.value.destinations) else {})
  {
    triggered := [];
    if |r.source| == 0 { return; }
    Added(cache, r);
    var added := Collect(r.destinations);
    if !warmedUp { return; }
    if was.Some? {
      var known := Collect(was.value.destinations);
      added := added - known;
    }
    triggered := InSomeOrder(added);
  }

  method Collect(s: seq<string>) returns (r: set<string>)
    ensures r == Elements(s)
  {
    r := {};
    for i := 0 to |s|
      invariant r == Elements(s[..i])
    {
      assert s[..i + 1] == s[..i] + [s[i]];
      r := r + {s[i]};
    }
    assert s[..|s|] == s;
  }

  // ---------- any number of handlers, interleaved ----------

  // A handler in its loop: destinations left, and the one written to
  // dependencies but not yet to dependents.
  datatype Handler = Handler(source: string, todo: seq<string>, half: Option<string>)

  datatype State = State(
    dependencies: Relation, dependents: Relation,
    handlers: seq<Handler>,
    records: seq<Record>)  // every record handed to a handler so far

  const INITIAL := State(map[], map[], [], [])

  datatype Action =
    | Start(r: Record)        // a worker takes up an Added or Updated event
    | WriteDependency(h: nat)
    | WriteDependent(h: nat)

  predicate Enabled(s: State, a: Action) {
    match a
    case Start(r) => r.source != ""
    case WriteDependency(h) => h < |s.handlers| && s.handlers[h].half.None? && s.handlers[h].todo != []
    case WriteDependent(h) => h < |s.handlers| && s.handlers[h].half.Some?
  }

  function Step(s: State, a: Action): State
    requires Enabled(s, a)
  {
    match a
    case Start(r) =>
      s.(handlers := s.handlers + [Handler(r.source, r.destinations, None)], records := s.records + [r])
    case WriteDependency(h) =>
      var w := s.handlers[h];
      s.(dependencies := Link(s.dependencies, w.source, w.todo[0]),
         handlers := s.handlers[h := Handler(w.source, w.todo[1..], Some(w.todo[0]))])
    case WriteDependent(h) =>
      var w := s.handlers[h];
      s.(dependents := Link(s.dependents, w.half.value, w.source),
         handlers := s.handlers[h := w.(half := None)])
  }

  predicate AllEnabled(s: State, actions: seq<Action>)
    decreases |actions|
  {
    actions == [] || (Enabled(s, actions[0]) && AllEnabled(Step(s, actions[0]), actions[1..]))
  }

  function Run(s: State, actions: seq<Action>): State
    requires AllEnabled(s, actions)
    decreases |actions|
  {
    if actions == [] then s else Run(Step(s, actions[0]), actions[1..])
  }

  predicate MidLoop(w: Handler) { w.half.Some? || w.todo != [] }

  // Some handler has x -> y half written, or has it still to write.
  predicate HalfWritten(s: State, x: string, y: string) {
    exists w <- s.handlers :: w.half.Some? && x == ToLower(w.source) && y == ToLower(w.half.value)
  }

  predicate Pending(s: State, x: string, y: string) {
    exists w <- s.handlers :: x == ToLower(w.source) && exists d <- w.todo :: y == ToLower(d)
  }

  // Some record ever handled says x depends on y.
  predicate Seen(records: seq<Record>, x: string, y: string) {
    exists r <- records :: x == ToLower(r.source) && exists d <- r.destinations :: y == ToLower(d)
  }

  ghost predicate Inv(s: State) {
    (forall x, y :: Linked(s.dependents, y, x) ==> Linked(s.dependencies, x, y))
    && (forall x, y :: Linked(s.dependencies, x, y) ==> Linked(s.dependents, y, x) || HalfWritten(s, x, y))
    && (forall x, y :: Seen(s.records, x, y) <==> Linked(s.dependencies, x, y) || Pending(s, x, y))
    && (forall w <- s.handlers :: w.half.Some? ==> Linked(s.dependencies, ToLower(w.source), ToLower(w.half.value)))
  }

  lemma StartKept(s: State, r: Record)
    requires Inv(s) && Enabled(s, Start(r))
    ensures Inv(Step(s, Start(r)))
  {
    var s' := Step(s, Start(r));
    var w := Handler(r.source, r.destinations, None);
    forall x, y
      ensures HalfWritten(s, x, y) ==> HalfWritten(s', x, y)
      ensures Pending(s', x, y) <==> Pending(s, x, y) || (x == ToLower(r.source) && exists d <- r.destinations :: y == ToLower(d))
      ensures Seen(s'.records, x, y) <==> Seen(s.records, x, y) || (x == ToLower(r.source) && exists d <- r.destinations :: y == ToLower(d))
    {
      assert forall v <- s'.handlers :: v in s.handlers || v == w;
      assert forall v <- s.handlers :: v in s'.handlers;
      assert w in s'.handlers && r in s'.records;
      assert forall v <- s'.records :: v in s.records || v == r;
      assert forall v <- s.records :: v in s'.records;
    }
  }

  // Replacing one handler changes only what that handler has pending or half written.
  lemma ReplacedHandler(hs: seq<Handler>, h: nat, w': Handler)
    requires h < |hs|
    ensures forall v :: v in hs[h := w'] ==> v == w' || v in hs
    ensures forall v :: v in hs ==> v == hs[h] || v in hs[h := w']
    ensures w' in hs[h := w']
  {
    var hs' := hs[h := w'];
    assert hs'[h] == w';
    forall v | v in hs ensures v == hs[h] || v in hs' {
      var i :| 0 <= i < |hs| && hs[i] == v;
      if i != h { assert hs'[i] == v; }
    }
  }

  lemma WriteDependencyKept(s: State, h: nat)
    requires Inv(s) && Enabled(s, WriteDependency(h))
    ensures Inv(Step(s, WriteDependency(h)))
  {
    var s' := Step(s, WriteDependency(h));
    var w, w' := s.handlers[h], s'.handlers[h];
    var x0, y0 := ToLower(w.source), ToLower(w.todo[0]);
    ReplacedHandler(s.handlers, h, w');
    forall x, y
      ensures Linked(s'.dependencies, x, y) <==> Linked(s.dependencies, x, y) || (x == x0 && y == y0)
      ensures HalfWritten(s, x, y) || (x == x0 && y == y0) ==> HalfWritten(s', x, y)
      ensures Pending(s', x, y) ==> Pending(s, x, y)
      ensures Pending(s, x, y) ==> Pending(s', x, y) || (x == x0 && y == y0)
    {
      LinkAt(s.dependencies, w.source, w.todo[0], x, y);
      assert w in s.handlers;
      assert w.todo == [w.todo[0]] + w'.todo;
    }
    assert Pending(s, x0, y0);
  }

  lemma WriteDependentKept(s: State, h: nat)
    requires Inv(s) && Enabled(s, WriteDependent(h))
    ensures Inv(Step(s, WriteDependent(h)))
  {
    var s' := Step(s, WriteDependent(h));
    var w, w' := s.handlers[h], s'.handlers[h];
    var x0, y0 := ToLower(w.source), ToLower(w.half.value);
    ReplacedHandler(s.handlers, h, w');
    assert w in s.handlers;
    forall x, y
      ensures Linked(s'.dependents, y, x) <==> Linked(s.dependents, y, x) || (x == x0 && y == y0)
      ensures HalfWritten(s, x, y) ==> HalfWritten(s', x, y) || (x == x0 && y == y0)
      ensures Pending(s', x, y) <==> Pending(s, x, y)
    {
      LinkAt(s.dependents, w.half.value, w.source, y, x);
    }
  }

  lemma {:induction false} RunKeepsInv(s: State, actions: seq<Action>)
    requires Inv(s) && AllEnabled(s, actions)
    ensures Inv(Run(s, actions))
    decreases |actions|
  {
    if actions != [] {
      match actions[0] {
        case Start(r) => StartKept(s, r);
        case WriteDependency(h) => WriteDependencyKept(s, h);
        case WriteDependent(h) => WriteDependentKept(s, h);
      }
      RunKeepsInv(Step(s, actions[0]), actions[1..]);
    }
  }

  // At every step a recorded dependent is a recorded dependency; once no
  // handler is mid-loop the two relations are inverse to each other and hold
  // exactly the destinations of all records seen.
  lemma RelationsStayInverse(actions: seq<Action>)
    requires AllEnabled(INITIAL, actions)
    ensures var s := Run(INITIAL, actions);
            forall x, y :: Linked(s.dependents, y, x) ==> Linked(s.dependencies, x, y)
    ensures var s := Run(INITIAL, actions);
            (forall w <- s.handlers :: !MidLoop(w)) ==>
            forall x, y :: (Linked(s.dependencies, x, y) <==> Linked(s.dependents, y, x))
                           && (Linked(s.dependencies, x, y) <==> Seen(s.records, x, y))
  {
    RunKeepsInv(INITIAL, actions);
  }
}
