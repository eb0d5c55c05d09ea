// Reconciling the throttle filters of one traffic config with the filters a
// cluster's API server holds (namespace istio-system).
module EnvoyFilters {
  import opened Wrappers
  import opened Text
  import opened Iteration

  datatype Filter = Filter(name: string, labels: map<string, string>, spec: string)

  type Store = map<string, Filter>

  // Both labels of the list selector: createdFor and createdForTrafficEnv.
  datatype Selector = Selector(createdFor: string, trafficEnv: string)

  const CREATED_FOR := "createdFor"
  const CREATED_BY := "createdBy"
  const CREATED_FOR_ENV := "createdForEnv"
  const CREATED_TYPE := "createdType"
  const CREATED_FOR_TRAFFIC_ENV := "createdForTrafficEnv"

  predicate Matches(f: Filter, sel: Selector) {
    CREATED_FOR in f.labels && f.labels[CREATED_FOR] == sel.createdFor
    && CREATED_FOR_TRAFFIC_ENV in f.labels && f.labels[CREATED_FOR_TRAFFIC_ENV] == sel.trafficEnv
  }

  predicate EqualFold(a: string, b: string) { ToLower(a) == ToLower(b) }

  predicate Present(f: Filter, list: seq<Filter>) {
    exists g <- list :: EqualFold(g.name, f.name)
  }

  // ---------- API calls on the store ----------

  // Refused when the name is taken.
  function Created(s: Store, f: Filter): Store {
    if f.name in s then s else s[f.name := f]
  }

  // Refused when the name is free.
  function Updated(s: Store, f: Filter): Store {
    if f.name in s then s[f.name := f] else s
  }

  function Deleted(s: Store, f: Filter): Store { s - {f.name} }

  function CreatedAll(s: Store, fs: seq<Filter>): Store {
    if fs == [] then s else Created(CreatedAll(s, fs[..|fs| - 1]), fs[|fs| - 1])
  }

  function UpdatedAll(s: Store, fs: seq<Filter>): Store {
    if fs == [] then s else Updated(UpdatedAll(s, fs[..|fs| - 1]), fs[|fs| - 1])
  }

  function DeletedAll(s: Store, fs: seq<Filter>): Store {
    if fs == [] then s else Deleted(DeletedAll(s, fs[..|fs| - 1]), fs[|fs| - 1])
  }

  // The elements of fs that are, or are not, present in other.
  function Keep(fs: seq<Filter>, other: seq<Filter>, present: bool): seq<Filter> {
    if fs == [] then []
    else Keep(fs[..|fs| - 1], other, present)
         + if Present(fs[|fs| - 1], other) == present then [fs[|fs| - 1]] else []
  }

  datatype Plan = Plan(create: seq<Filter>, update: seq<Filter>, delete: seq<Filter>)

  function PlanFor(requested: seq<Filter>, existing: seq<Filter>): Plan {
    Plan(Keep(requested, existing, false), Keep(requested, existing, true),
         if requested == [] then existing else Keep(existing, requested, false))
  }

  function Execute(s: Store, p: Plan): Store {
    DeletedAll(UpdatedAll(CreatedAll(s, p.create), p.update), p.delete)
  }

  // ---------- the client ----------

  class IstioClient {
    var store: Store

    constructor (initial: Store)
      ensures store == initial
    {
      store := initial;
    }

    method CreateEnvoyFilters(fs: seq<Filter>)
      modifies this
      ensures store == CreatedAll(old(store), fs)
    {
      for i := 0 to |fs|
        invariant store == CreatedAll(old(store), fs[..i])
      {
        assert fs[..i + 1][..i] == fs[..i];
        if fs[i].name !in store { store := store[fs[i].name := fs[i]]; }
      }
      assert fs[..|fs|] == fs;
    }

    method UpdateEnvoyFilters(fs: seq<Filter>)
      modifies this
      ensures store == UpdatedAll(old(store), fs)
    {
      for i := 0 to |fs|
        invariant store == UpdatedAll(old(store), fs[..i])
      {
        assert fs[..i + 1][..i] == fs[..i];
        if fs[i].name in store { store := store[fs[i].name := fs[i]]; }
      }
      assert fs[..|fs|] == fs;
    }

    method DeleteEnvoyFilters(fs: seq<Filter>)
      modifies this
      ensures store == DeletedAll(old(store), fs)
    {
      for i := 0 to |fs|
        invariant store == DeletedAll(old(store), fs[..i])
      {
        assert fs[..i + 1][..i] == fs[..i];
        store := store - {fs[i].name};
      }
      assert fs[..|fs|] == fs;
    }

    // In the order the server happens to return them.
    method ListEnvoyFilters(sel: Selector) returns (items: seq<Filter>)
      requires WellKeyed(store)
      ensures Lists(items, store, sel)
    {
      items := [];
      var rest := store.Keys;
      while rest != {}
        invariant rest <= store.Keys
        invariant forall n :: n in store && n !in rest && Matches(store[n], sel) ==> store[n] in items
        invariant forall f <- items :: f.name in store && f.name !in rest && store[f.name] == f && Matches(f, sel)
        decreases |rest|
      {
        var n :| n in rest;
        rest := rest - {n};
        if Matches(store[n], sel) { items := items + [store[n]]; }
      }
    }

    method ApplyEnvoyFilters(requested: seq<Filter>, existing: seq<Filter>) returns (plan: Plan)
      modifies this
      ensures plan == PlanFor(requested, existing)
      ensures store == Execute(old(store), plan)
    {
      var toCreate, toUpdate, toDelete := [], [], [];
      if |requested| > 0 {
        for i := 0 to |requested|
          invariant store == old(store)
          invariant toCreate == Keep(requested[..i], existing, false)
          invariant toUpdate == Keep(requested[..i], existing, true)
        {
          assert requested[..i + 1][..i] == requested[..i];
          var present := CheckIfPresent(requested[i], existing);
          if present { toUpdate := toUpdate + [requested[i]]; } else { toCreate := toCreate + [requested[i]]; }
        }
        assert requested[..|requested|] == requested;
        for i := 0 to |existing|
          invariant store == old(store)
          invariant toDelete == Keep(existing[..i], requested, false)
        {
          assert existing[..i + 1][..i] == existing[..i];
          var present := CheckIfPresent(existing[i], requested);
          if !present { toDelete := toDelete + [existing[i]]; }
        }
        assert existing[..|existing|] == existing;
      } else {
        toDelete := toDelete + existing;
      }
      plan := Plan(toCreate, toUpdate, toDelete);
      CreateEnvoyFilters(toCreate);
      UpdateEnvoyFilters(toUpdate);
      DeleteEnvoyFilters(toDelete);
    }
  }

  method CheckIfPresent(f: Filter, list: seq<Filter>) returns (found: bool)
    ensures found <==> exists i :: 0 <= i < |list| && ToLower(list[i].name) == ToLower(f.name)
    ensures found <==> Present(f, list)
  {
    for i := 0 to |list|
      invariant forall g <- list[..i] :: !EqualFold(g.name, f.name)
    {
      if EqualFold(list[i].name, f.name) { return true; }
      assert list[..i + 1] == list[..i] + [list[i]];
    }
    assert list[..|list|] == list;
    return false;
  }

  // ---------- what the server guarantees ----------

  predicate WellKeyed(s: Store) { forall n <- s :: s[n].name == n }

  // Object names are lower-case on the server; GetName lower-cases the requested ones.
  predicate LowerNames(fs: seq<Filter>) { forall f <- fs :: IsLower(f.name) }

  predicate LowerStore(s: Store) { forall n <- s :: IsLower(n) }

  predicate Lists(items: seq<Filter>, s: Store, sel: Selector) {
    (forall f <- items :: f.name in s && s[f.name] == f && Matches(f, sel))
    && (forall n <- s :: Matches(s[n], sel) ==> s[n] in items)
  }

  // ---------- the store after a plan, name by name ----------

  function Lookup(s: Store, n: string): Option<Filter> { if n in s then Some(s[n]) else None }

  function First(fs: seq<Filter>, n: string): Option<Filter> {
    if fs == [] then None
    else match First(fs[..|fs| - 1], n)
         case Some(f) => Some(f)
         case None => if fs[|fs| - 1].name == n then Some(fs[|fs| - 1]) else None
  }

  function Last(fs: seq<Filter>, n: string): Option<Filter> {
    if fs == [] then None
    else if fs[|fs| - 1].name == n then Some(fs[|fs| - 1])
    else Last(fs[..|fs| - 1], n)
  }

  predicate Named(fs: seq<Filter>, n: string) { exists f <- fs :: f.name == n }

  function OrElse(a: Option<Filter>, b: Option<Filter>): Option<Filter> { if a.Some? then a else b }

  lemma {:induction false} CreatedAllAt(s: Store, fs: seq<Filter>, n: string)
    ensures Lookup(CreatedAll(s, fs), n) == OrElse(Lookup(s, n), First(fs, n))
    decreases |fs|
  {
    if fs != [] { CreatedAllAt(s, fs[..|fs| - 1], n); }
  }

  lemma {:induction false} UpdatedAllAt(s: Store, fs: seq<Filter>, n: string)
    ensures Lookup(UpdatedAll(s, fs), n) == if n in s then OrElse(Last(fs, n), Lookup(s, n)) else None
    decreases |fs|
  {
    if fs != [] { UpdatedAllAt(s, fs[..|fs| - 1], n); }
  }

  lemma {:induction false} DeletedAllAt(s: Store, fs: seq<Filter>, n: string)
    ensures Lookup(DeletedAll(s, fs), n) == if Named(fs, n) then None else Lookup(s, n)
    decreases |fs|
  {
    if fs != [] {
      DeletedAllAt(s, fs[..|fs| - 1], n);
      assert fs == fs[..|fs| - 1] + [fs[|fs| - 1]];
    }
  }

  lemma PresentIffNamed(f: Filter, list: seq<Filter>)
    requires IsLower(f.name) && LowerNames(list)
    ensures Present(f, list) <==> Named(list, f.name)
  {
    LowerFixed(f.name);
    forall g <- list ensures EqualFold(g.name, f.name) <==> g.name == f.name {
      LowerFixed(g.name);
    }
  }

  // Filtering by presence keeps or drops a name as a whole.
  lemma {:induction false} KeepAt(fs: seq<Filter>, other: seq<Filter>, present: bool, n: string)
    requires LowerNames(fs) && LowerNames(other)
    ensures Named(other, n) == present ==>
              First(Keep(fs, other, present), n) == First(fs, n) && Last(Keep(fs, other, present), n) == Last(fs, n)
    ensures Named(other, n) != present ==>
              First(Keep(fs, other, present), n) == None && Last(Keep(fs, other, present), n) == None
    decreases |fs|
  {
    if fs != [] {
      var k := |fs| - 1;
      KeepAt(fs[..k], other, present, n);
      PresentIffNamed(fs[k], other);
      var rest := Keep(fs[..k], other, present);
      if Present(fs[k], other) == present {
        assert Keep(fs, other, present)[..|rest|] == rest;
      } else {
        assert Keep(fs, other, present) == rest;
      }
    }
  }

  lemma {:induction false} NamedIffFirst(fs: seq<Filter>, n: string)
    ensures Named(fs, n) <==> First(fs, n).Some?
    ensures Named(fs, n) <==> Last(fs, n).Some?
    ensures Named(fs, n) ==> First(fs, n).value in fs && First(fs, n).value.name == n
    ensures Named(fs, n) ==> Last(fs, n).value in fs && Last(fs, n).value.name == n
    decreases |fs|
  {
    if fs != [] {
      NamedIffFirst(fs[..|fs| - 1], n);
      assert fs == fs[..|fs| - 1] + [fs[|fs| - 1]];
    }
  }

  // The value every name ends with, for every request list and every store:
  // a listed name takes the last request for it or goes away, an unlisted name
  // is kept if taken and takes the first request for it if free.
  function After(s: Store, requested: seq<Filter>, existing: seq<Filter>, n: string): Option<Filter> {
    if Named(requested, n) then
      if Named(existing, n) then Last(requested, n)
      else OrElse(Lookup(s, n), First(requested, n))
    else if Named(existing, n) then None
    else Lookup(s, n)
  }

  lemma {:induction false} ReconciledAt(s: Store, requested: seq<Filter>, existing: seq<Filter>, sel: Selector, n: string)
    requires WellKeyed(s) && LowerStore(s) && LowerNames(requested)
    requires Lists(existing, s, sel)
    ensures Lookup(Execute(s, PlanFor(requested, existing)), n) == After(s, requested, existing, n)
  {
    var p := PlanFor(requested, existing);
    var s1 := CreatedAll(s, p.create);
    var s2 := UpdatedAll(s1, p.update);
    CreatedAllAt(s, p.create, n);
    UpdatedAllAt(s1, p.update, n);
    DeletedAllAt(s2, p.delete, n);
    KeepAt(requested, existing, false, n);
    KeepAt(requested, existing, true, n);
    KeepAt(existing, requested, false, n);
    NamedIffFirst(requested, n);
    NamedIffFirst(existing, n);
    NamedIffFirst(p.delete, n);
    assert Named(existing, n) ==> n in s;
  }

  // ---------- convergence ----------

  function Listed(s: Store, sel: Selector): set<Filter> {
    set n | n in s && Matches(s[n], sel) :: s[n]
  }

  predicate DistinctNames(fs: seq<Filter>) {
    forall i, j :: 0 <= i < j < |fs| ==> fs[i].name != fs[j].name
  }

  // No requested name belongs to an object outside the selector.
  predicate NamesAvailable(s: Store, requested: seq<Filter>, sel: Selector) {
    forall f <- requested :: f.name in s ==> Matches(s[f.name], sel)
  }

  lemma DistinctFirstLast(fs: seq<Filter>, f: Filter)
    requires DistinctNames(fs) && f in fs
    ensures First(fs, f.name) == Some(f) == Last(fs, f.name)
  {
    assert Named(fs, f.name);
    NamedIffFirst(fs, f.name);
  }

  // Listing after apply gives exactly the requested filters if and only if no
  // requested name was held by an object the selector does not list.
  lemma {:induction false} ConvergesIffNamesAvailable(s: Store, requested: seq<Filter>, existing: seq<Filter>, sel: Selector)
    requires WellKeyed(s) && LowerStore(s) && LowerNames(requested)
    requires Lists(existing, s, sel)
    requires DistinctNames(requested) && forall f <- requested :: Matches(f, sel)
    ensures Listed(Execute(s, PlanFor(requested, existing)), sel) == (set f <- requested)
       <==> NamesAvailable(s, requested, sel)
  {
    var s' := Execute(s, PlanFor(requested, existing));
    hide Matches, First, Last, After, Lookup, Execute, PlanFor, LowerStore, LowerNames;
    forall n ensures Lookup(s', n) == After(s, requested, existing, n) {
      ReconciledAt(s, requested, existing, sel, n);
    }
    forall f <- requested ensures First(requested, f.name) == Some(f) == Last(requested, f.name) {
      DistinctFirstLast(requested, f);
    }
    if NamesAvailable(s, requested, sel) {
      ConvergesWhenAvailable(s, requested, existing, sel, s');
    } else {
      NeverListed(s, requested, existing, sel, s');
    }
  }

  // A requested name held outside the selector stays with its holder.
  lemma NeverListed(s: Store, requested: seq<Filter>, existing: seq<Filter>, sel: Selector, s': Store)
    requires WellKeyed(s) && Lists(existing, s, sel)
    requires forall f <- requested :: Matches(f, sel)
    requires forall n :: Lookup(s', n) == After(s, requested, existing, n)
    requires !NamesAvailable(s, requested, sel)
    ensures Listed(s', sel) != (set f <- requested)
  {
    hide Matches;
    var f :| f in requested && f.name in s && !Matches(s[f.name], sel);
    assert Lookup(s', f.name) == After(s, requested, existing, f.name) == Lookup(s, f.name);
    forall n | n in s' ensures s'[n] != f || !Matches(s'[n], sel) {
      assert Lookup(s', n) == After(s, requested, existing, n);
      NamedIffFirst(requested, n);
    }
    assert f !in Listed(s', sel);
  }

  lemma ConvergesWhenAvailable(s: Store, requested: seq<Filter>, existing: seq<Filter>, sel: Selector, s': Store)
    requires WellKeyed(s) && Lists(existing, s, sel)
    requires forall f <- requested :: Matches(f, sel)
    requires forall f <- requested :: First(requested, f.name) == Some(f) == Last(requested, f.name)
    requires forall n :: Lookup(s', n) == After(s, requested, existing, n)
    requires NamesAvailable(s, requested, sel)
    ensures Listed(s', sel) == (set f <- requested)
  {
    forall f <- requested ensures f in Listed(s', sel) {
      assert Named(requested, f.name);
      assert Lookup(s', f.name) == After(s, requested, existing, f.name);
      if f.name in s {
        assert s[f.name] in existing;
        assert Named(existing, f.name);
      }
      assert s'[f.name] == f;
    }
    forall n | n in s' && Matches(s'[n], sel) ensures s'[n] in requested {
      assert Lookup(s', n) == After(s, requested, existing, n);
      NamedIffFirst(requested, n);
      HeldNameIsListed(s, requested, existing, sel, n);
    }
  }

  lemma HeldNameIsListed(s: Store, requested: seq<Filter>, existing: seq<Filter>, sel: Selector, n: string)
    requires WellKeyed(s) && Lists(existing, s, sel)
    requires NamesAvailable(s, requested, sel)
    ensures n in s && (Matches(s[n], sel) || Named(requested, n)) ==> Named(existing, n)
  {
    if n in s && (Matches(s[n], sel) || Named(requested, n)) {
      assert s[n] in existing && s[n].name == n;
    }
  }

  // Objects outside the selector are never touched, and nothing appears under
  // a name that was not requested.
  lemma {:induction false} ApplyFrame(s: Store, requested: seq<Filter>, existing: seq<Filter>, sel: Selector, n: string)
    requires WellKeyed(s) && LowerStore(s) && LowerNames(requested)
    requires Lists(existing, s, sel)
    ensures n in s && !Matches(s[n], sel) ==> Lookup(Execute(s, PlanFor(requested, existing)), n) == Some(s[n])
    ensures n !in s && !Named(requested, n) ==> n !in Execute(s, PlanFor(requested, existing))
  {
    ReconciledAt(s, requested, existing, sel, n);
    if Named(existing, n) {
      assert n in s && Matches(s[n], sel);
    }
  }

  lemma {:induction false} KeepAll(fs: seq<Filter>, other: seq<Filter>)
    requires forall f <- fs :: Present(f, other)
    ensures Keep(fs, other, true) == fs && Keep(fs, other, false) == []
    decreases |fs|
  {
    hide Present;
    if fs != [] {
      var k := |fs| - 1;
      KeepAll(fs[..k], other);
      assert Present(fs[k], other);
      assert fs == fs[..k] + [fs[k]];
    }
  }

  // Once converged, applying the same request again creates and deletes
  // nothing and leaves the store as it is.
  lemma {:induction false} SecondApplyOnlyUpdates(s: Store, requested: seq<Filter>, existing: seq<Filter>, sel: Selector)
    requires WellKeyed(s) && Lists(existing, s, sel)
    requires Listed(s, sel) == set f <- requested
    ensures PlanFor(requested, existing) == Plan([], requested, [])
    ensures Execute(s, PlanFor(requested, existing)) == s
  {
    SameMembers(s, requested, existing, sel);
    forall f <- requested ensures Present(f, existing) { assert f in existing; }
    forall f <- existing ensures Present(f, requested) { assert f in requested; }
    KeepAll(requested, existing);
    KeepAll(existing, requested);
    assert requested == [] ==> existing == [] by {
      if existing != [] { assert existing[0] in requested; }
    }
    UpdateToSame(s, requested);
  }

  lemma SameMembers(s: Store, requested: seq<Filter>, existing: seq<Filter>, sel: Selector)
    requires WellKeyed(s) && Lists(existing, s, sel)
    requires Listed(s, sel) == set f <- requested
    ensures forall f :: f in requested <==> f in existing
    ensures forall f <- requested :: f.name in s && s[f.name] == f
  {
    forall f ensures f in requested <==> f in existing {
      assert f in requested <==> f in Listed(s, sel);
    }
  }

  lemma {:induction false} UpdateToSame(s: Store, fs: seq<Filter>)
    requires forall f <- fs :: f.name in s && s[f.name] == f
    ensures UpdatedAll(s, fs) == s
    decreases |fs|
  {
    if fs != [] {
      UpdateToSame(s, fs[..|fs| - 1]);
      assert fs[|fs| - 1] in fs;
    }
  }

  // ---------- the throttle-filter handler ----------

  const NAAVIK := "naavik"

  // What the handler reads from a traffic config and the workload caches.
  datatype Throttle = Throttle(identity: string, trafficEnv: string, workloadEnvs: seq<string>, disabled: bool)

  function FilterName(identity: string, env: string, version: string): string {
    ToLower(identity + "-throttle-" + env + "-" + version)
  }

  function SelectorOf(tc: Throttle): Selector { Selector(ToLower(tc.identity), tc.trafficEnv) }

  function NewFilter(tc: Throttle, env: string, version: string, spec: string): Filter {
    Filter(FilterName(tc.identity, env, version),
           map[CREATED_FOR := ToLower(tc.identity), CREATED_BY := NAAVIK, CREATED_FOR_ENV := env,
               CREATED_TYPE := "throttle_filter", CREATED_FOR_TRAFFIC_ENV := tc.trafficEnv],
           spec)
  }

  type SpecOf = (string, string) -> string

  function EnvFilters(tc: Throttle, env: string, versions: seq<string>, specOf: SpecOf): seq<Filter> {
    seq(|versions|, i requires 0 <= i < |versions| => NewFilter(tc, env, versions[i], specOf(env, versions[i])))
  }

  // One filter per workload env that has a cached workload, and per proxy version.
  function Requests(tc: Throttle, envs: seq<string>, hasWorkload: string -> bool, versions: seq<string>,
                    specOf: SpecOf): seq<Filter>
  {
    if envs == [] then []
    else
      var env := envs[|envs| - 1];
      Requests(tc, envs[..|envs| - 1], hasWorkload, versions, specOf)
      + if hasWorkload(env) then EnvFilters(tc, env, versions, specOf) else []
  }

  // A disabled or deleted config requests nothing.
  function RequestsFor(tc: Throttle, deleted: bool, hasWorkload: string -> bool, versions: seq<string>,
                       specOf: SpecOf): seq<Filter>
  {
    if tc.disabled || deleted then [] else Requests(tc, tc.workloadEnvs, hasWorkload, versions, specOf)
  }

  // Field by field: the filter of one environment and version.
  predicate FilterFits(f: Filter, tc: Throttle, env: string, version: string, specOf: SpecOf) {
    && f.name == ToLower(tc.identity + "-throttle-" + env + "-" + version) && f.spec == specOf(env, version)
    && f.labels == map["createdFor" := ToLower(tc.identity), "createdBy" := "naavik", "createdForEnv" := env,
                       "createdType" := "throttle_filter", "createdForTrafficEnv" := tc.trafficEnv]
  }

  // An environment with a workload, and a version.
  predicate FilterPosition(envs: seq<string>, hasWorkload: string -> bool, versions: seq<string>, p: (nat, nat)) {
    p.0 < |envs| && hasWorkload(envs[p.0]) && p.1 < |versions|
  }

  // The filter of that environment and that version.
  predicate FilterAt(f: Filter, tc: Throttle, envs: seq<string>, hasWorkload: string -> bool, versions: seq<string>,
                     specOf: SpecOf, p: (nat, nat))
  {
    FilterPosition(envs, hasWorkload, versions, p) && FilterFits(f, tc, envs[p.0], versions[p.1], specOf)
  }

  // By position: filter j is that of environment from[j].0, which has a workload, and
  // of version from[j].1; environments in order, then versions, and none left out.
  ghost predicate FiltersFit(fs: seq<Filter>, tc: Throttle, envs: seq<string>, hasWorkload: string -> bool, versions: seq<string>,
                       specOf: SpecOf, from: seq<(nat, nat)>)
  {
    && |from| == |fs| && RowByRow(from)
    && (forall j :: 0 <= j < |from| ==> FilterAt(fs[j], tc, envs, hasWorkload, versions, specOf, from[j]))
    && (forall a: nat, b: nat :: FilterPosition(envs, hasWorkload, versions, (a, b)) ==> (a, b) in from)
  }

  lemma NewFilterFits(tc: Throttle, env: string, version: string, specOf: SpecOf)
    ensures FilterFits(NewFilter(tc, env, version, specOf(env, version)), tc, env, version, specOf)
  {
  }

  lemma RowFits(before: seq<Filter>, tc: Throttle, envs: seq<string>, hasWorkload: string -> bool, versions: seq<string>,
                specOf: SpecOf, from: seq<(nat, nat)>)
    requires envs != [] && FiltersFit(before, tc, envs[..|envs| - 1], hasWorkload, versions, specOf, from)
    requires hasWorkload(envs[|envs| - 1])
    ensures FiltersFit(before + EnvFilters(tc, envs[|envs| - 1], versions, specOf), tc, envs, hasWorkload, versions, specOf,
                       from + Row(|envs| - 1, |versions|))
  {
    var n, env := |envs| - 1, envs[|envs| - 1];
    var row, more := Row(n, |versions|), EnvFilters(tc, env, versions, specOf);
    forall p <- from ensures p.0 < n { var j :| 0 <= j < |from| && from[j] == p; }
    OneRowMore(from, n, |row|);
    hide FilterFits, NewFilter, RowByRow;
    forall j | 0 <= j < |from + row|
      ensures FilterAt((before + more)[j], tc, envs, hasWorkload, versions, specOf, (from + row)[j])
    {
      if j < |from| {
        assert FilterAt(before[j], tc, envs[..n], hasWorkload, versions, specOf, from[j]);
      } else {
        NewFilterFits(tc, env, versions[j - |from|], specOf);
      }
    }
    forall a: nat, b: nat | FilterPosition(envs, hasWorkload, versions, (a, b)) ensures (a, b) in from + row {
      if a < n { assert FilterPosition(envs[..n], hasWorkload, versions, (a, b)); } else { assert row[b] == (a, b); }
    }
  }

  lemma NoWorkload(before: seq<Filter>, tc: Throttle, envs: seq<string>, hasWorkload: string -> bool, versions: seq<string>,
                   specOf: SpecOf, from: seq<(nat, nat)>)
    requires envs != [] && FiltersFit(before, tc, envs[..|envs| - 1], hasWorkload, versions, specOf, from)
    requires !hasWorkload(envs[|envs| - 1])
    ensures FiltersFit(before + [], tc, envs, hasWorkload, versions, specOf, from)
  {
    hide FilterFits, RowByRow;
    var n := |envs| - 1;
    assert before + [] == before;
    forall j | 0 <= j < |from| ensures FilterAt(before[j], tc, envs, hasWorkload, versions, specOf, from[j]) {
      assert FilterAt(before[j], tc, envs[..n], hasWorkload, versions, specOf, from[j]);
    }
    forall a: nat, b: nat | FilterPosition(envs, hasWorkload, versions, (a, b)) ensures (a, b) in from {
      assert FilterPosition(envs[..n], hasWorkload, versions, (a, b));
    }
  }

  lemma {:induction false} RequestsFit(tc: Throttle, envs: seq<string>, hasWorkload: string -> bool, versions: seq<string>,
                                       specOf: SpecOf)
    returns (from: seq<(nat, nat)>)
    ensures FiltersFit(Requests(tc, envs, hasWorkload, versions, specOf), tc, envs, hasWorkload, versions, specOf, from)
    decreases |envs|
  {
    from := [];
    if envs != [] {
      var n := |envs| - 1;
      var before := RequestsFit(tc, envs[..n], hasWorkload, versions, specOf);
      hide FiltersFit;
      if hasWorkload(envs[n]) {
        RowFits(Requests(tc, envs[..n], hasWorkload, versions, specOf), tc, envs, hasWorkload, versions, specOf, before);
        from := before + Row(n, |versions|);
      } else {
        NoWorkload(Requests(tc, envs[..n], hasWorkload, versions, specOf), tc, envs, hasWorkload, versions, specOf, before);
        from := before;
      }
    }
  }

  // Some environment of the config with a workload, and some version, ask for it.
  ghost predicate Requested(f: Filter, tc: Throttle, hasWorkload: string -> bool, versions: seq<string>, specOf: SpecOf) {
    exists env, version ::
      env in tc.workloadEnvs && hasWorkload(env) && version in versions && FilterFits(f, tc, env, version, specOf)
  }

  lemma RequestedIff(tc: Throttle, hasWorkload: string -> bool, versions: seq<string>, specOf: SpecOf, f: Filter)
    ensures f in Requests(tc, tc.workloadEnvs, hasWorkload, versions, specOf) <==> Requested(f, tc, hasWorkload, versions, specOf)
  {
    var fs, envs := Requests(tc, tc.workloadEnvs, hasWorkload, versions, specOf), tc.workloadEnvs;
    var from := RequestsFit(tc, envs, hasWorkload, versions, specOf);
    hide Requests;
    if f in fs {
      var j :| 0 <= j < |fs| && fs[j] == f;
      assert FilterFits(f, tc, envs[from[j].0], versions[from[j].1], specOf);
    }
    if Requested(f, tc, hasWorkload, versions, specOf) {
      var env, version :|
        env in envs && hasWorkload(env) && version in versions && FilterFits(f, tc, env, version, specOf);
      var a: nat :| a < |envs| && envs[a] == env;
      var b: nat :| b < |versions| && versions[b] == version;
      assert (a, b) in from;
      var j :| 0 <= j < |from| && from[j] == (a, b);
      assert fs[j] == f;
    }
  }

  // ---------- when the names differ ----------

  // No two of the environments with a workload and the versions make one name.
  predicate NamesApart(tc: Throttle, hasWorkload: string -> bool, versions: seq<string>) {
    forall a, b, c, d ::
      0 <= a < |tc.workloadEnvs| && hasWorkload(tc.workloadEnvs[a]) && 0 <= b < |versions|
      && 0 <= c < |tc.workloadEnvs| && hasWorkload(tc.workloadEnvs[c]) && 0 <= d < |versions| && (a, b) != (c, d)
      ==> !SameName(tc.workloadEnvs[a], versions[b], tc.workloadEnvs[c], versions[d])
  }

  predicate SameName(env: string, version: string, env': string, version': string) {
    ToLower(env + "-" + version) == ToLower(env' + "-" + version')
  }

  lemma NameEnds(identity: string, env: string, version: string, env': string, version': string)
    ensures ToLower(identity + "-throttle-" + env + "-" + version) == ToLower(identity + "-throttle-" + env' + "-" + version')
       <==> SameName(env, version, env', version')
  {
    var head := identity + "-throttle-";
    assert head + env + "-" + version == head + (env + "-" + version);
    assert head + env' + "-" + version' == head + (env' + "-" + version');
    LowerConcat(head, env + "-" + version);
    LowerConcat(head, env' + "-" + version');
    var l, a, b := ToLower(head), ToLower(env + "-" + version), ToLower(env' + "-" + version');
    assert l + a == l + b ==> (l + a)[|l|..] == (l + b)[|l|..];
    assert (l + a)[|l|..] == a && (l + b)[|l|..] == b;
  }

  lemma NamesByPosition(fs: seq<Filter>, tc: Throttle, hasWorkload: string -> bool, versions: seq<string>, specOf: SpecOf,
                        from: seq<(nat, nat)>, i: nat, j: nat)
    requires FiltersFit(fs, tc, tc.workloadEnvs, hasWorkload, versions, specOf, from) && i < |fs| && j < |fs|
    ensures i != j ==> from[i] != from[j]
    ensures from[i].0 < |tc.workloadEnvs| && hasWorkload(tc.workloadEnvs[from[i].0]) && from[i].1 < |versions|
    ensures from[j].0 < |tc.workloadEnvs| && hasWorkload(tc.workloadEnvs[from[j].0]) && from[j].1 < |versions|
    ensures fs[i].name == fs[j].name <==>
      SameName(tc.workloadEnvs[from[i].0], versions[from[i].1], tc.workloadEnvs[from[j].0], versions[from[j].1])
  {
    var envs := tc.workloadEnvs;
    hide SameName, ToLower;
    NameEnds(tc.identity, envs[from[i].0], versions[from[i].1], envs[from[j].0], versions[from[j].1]);
  }

  lemma ApartMeansDistinct(fs: seq<Filter>, tc: Throttle, hasWorkload: string -> bool, versions: seq<string>, specOf: SpecOf,
                           from: seq<(nat, nat)>)
    requires FiltersFit(fs, tc, tc.workloadEnvs, hasWorkload, versions, specOf, from) && NamesApart(tc, hasWorkload, versions)
    ensures DistinctNames(fs)
  {
    assert |from| == |fs|;
    hide FiltersFit, SameName;
    forall i, j | 0 <= i < j < |fs| ensures fs[i].name != fs[j].name {
      NamesByPosition(fs, tc, hasWorkload, versions, specOf, from, i, j);
    }
  }

  lemma NotOneName(fs: seq<Filter>, tc: Throttle, hasWorkload: string -> bool, versions: seq<string>, specOf: SpecOf,
                   from: seq<(nat, nat)>, p: (nat, nat), q: (nat, nat))
    requires FiltersFit(fs, tc, tc.workloadEnvs, hasWorkload, versions, specOf, from) && DistinctNames(fs)
    requires p in from && q in from && p != q
    requires p.0 < |tc.workloadEnvs| && p.1 < |versions| && q.0 < |tc.workloadEnvs| && q.1 < |versions|
    ensures !SameName(tc.workloadEnvs[p.0], versions[p.1], tc.workloadEnvs[q.0], versions[q.1])
  {
    var i: nat :| i < |from| && from[i] == p;
    var j: nat :| j < |from| && from[j] == q;
    NamesByPosition(fs, tc, hasWorkload, versions, specOf, from, i, j);
    hide FiltersFit, SameName;
    assert i < j ==> fs[i].name != fs[j].name;
    assert j < i ==> fs[j].name != fs[i].name;
  }

  lemma DistinctMeansApart(fs: seq<Filter>, tc: Throttle, hasWorkload: string -> bool, versions: seq<string>, specOf: SpecOf,
                           from: seq<(nat, nat)>)
    requires FiltersFit(fs, tc, tc.workloadEnvs, hasWorkload, versions, specOf, from) && DistinctNames(fs)
    ensures NamesApart(tc, hasWorkload, versions)
  {
    var envs := tc.workloadEnvs;
    hide SameName, FilterFits, DistinctNames;
    forall a: nat, b: nat, c: nat, d: nat
      | a < |envs| && hasWorkload(envs[a]) && b < |versions| && c < |envs| && hasWorkload(envs[c]) && d < |versions|
        && (a, b) != (c, d)
      ensures !SameName(envs[a], versions[b], envs[c], versions[d])
    {
      NotOneName(fs, tc, hasWorkload, versions, specOf, from, (a, b), (c, d));
    }
  }

  // The requested names are distinct exactly then.
  lemma DistinctIffApart(tc: Throttle, hasWorkload: string -> bool, versions: seq<string>, specOf: SpecOf)
    ensures DistinctNames(Requests(tc, tc.workloadEnvs, hasWorkload, versions, specOf)) <==> NamesApart(tc, hasWorkload, versions)
  {
    var fs := Requests(tc, tc.workloadEnvs, hasWorkload, versions, specOf);
    var from := RequestsFit(tc, tc.workloadEnvs, hasWorkload, versions, specOf);
    hide Requests, NamesApart, DistinctNames, FiltersFit;
    if NamesApart(tc, hasWorkload, versions) { ApartMeansDistinct(fs, tc, hasWorkload, versions, specOf, from); }
    if DistinctNames(fs) { DistinctMeansApart(fs, tc, hasWorkload, versions, specOf, from); }
  }

  // Versions without a '-' keep names apart whenever they or the environments differ
  // in more than case.
  lemma DashFreeNames(env: string, version: string, env': string, version': string)
    requires '-' !in version && '-' !in version'
    ensures SameName(env, version, env', version') <==> ToLower(env) == ToLower(env') && ToLower(version) == ToLower(version')
  {
    LowerConcat(env + "-", version);
    LowerConcat(env, "-");
    LowerConcat(env' + "-", version');
    LowerConcat(env', "-");
    var e, v, e', v' := ToLower(env), ToLower(version), ToLower(env'), ToLower(version');
    assert ToLower("-") == "-";
    assert '-' !in v by { assert forall i :: 0 <= i < |v| ==> v[i] == LowerChar(version[i]); }
    assert '-' !in v' by { assert forall i :: 0 <= i < |v'| ==> v'[i] == LowerChar(version'[i]); }
    hide ToLower;
    if e + "-" + v == e' + "-" + v' { SplitAtLastDash(e, v, e', v'); }
  }

  lemma SplitAtLastDash(e: string, v: string, e': string, v': string)
    requires '-' !in v && '-' !in v' && e + "-" + v == e' + "-" + v'
    ensures e == e' && v == v'
  {
    var l, r := e + "-" + v, e' + "-" + v';
    assert l[|e|] == '-' && r[|e'|] == '-';
    assert forall k :: 0 <= k < |v| ==> l[|e| + 1 + k] == v[k];
    assert forall k :: 0 <= k < |v'| ==> r[|e'| + 1 + k] == v'[k];
    assert |e| == |e'|;
    assert l[..|e|] == e && r[..|e'|] == e' && l[|e| + 1..] == v && r[|e'| + 1..] == v';
  }

  method BuildFilters(tc: Throttle, hasWorkload: string -> bool, versions: seq<string>, specOf: SpecOf)
    returns (requested: seq<Filter>, ghost from: seq<(nat, nat)>)
    ensures requested == Requests(tc, tc.workloadEnvs, hasWorkload, versions, specOf)
    ensures FiltersFit(requested, tc, tc.workloadEnvs, hasWorkload, versions, specOf, from)
  {
    from := RequestsFit(tc, tc.workloadEnvs, hasWorkload, versions, specOf);
    hide FiltersFit;
    requested := [];
    var envs := tc.workloadEnvs;
    for i := 0 to |envs|
      invariant requested == Requests(tc, envs[..i], hasWorkload, versions, specOf)
    {
      assert envs[..i + 1][..i] == envs[..i];
      if !hasWorkload(envs[i]) { continue; }
      ghost var before := requested;
      for j := 0 to |versions|
        invariant requested == before + EnvFilters(tc, envs[i], versions, specOf)[..j]
      {
        requested := requested + [NewFilter(tc, envs[i], versions[j], specOf(envs[i], versions[j]))];
      }
    }
    assert envs[..|envs|] == envs;
  }

  lemma NewFilterMatches(tc: Throttle, env: string, version: string, spec: string)
    ensures var f := NewFilter(tc, env, version, spec); IsLower(f.name) && Matches(f, SelectorOf(tc))
  {
    ToLowerIsLower(tc.identity + "-throttle-" + env + "-" + version);
    var sizes := [|CREATED_FOR|, |CREATED_BY|, |CREATED_FOR_ENV|, |CREATED_TYPE|, |CREATED_FOR_TRAFFIC_ENV|];
    assert sizes == [10, 9, 13, 11, 20];
  }

  // The labels a filter is created with are the labels the handler lists by.
  lemma {:induction false} RequestsMatchTheirSelector(tc: Throttle, envs: seq<string>, hasWorkload: string -> bool,
                                                      versions: seq<string>, specOf: SpecOf)
    ensures var requested := Requests(tc, envs, hasWorkload, versions, specOf);
            LowerNames(requested) && forall f <- requested :: Matches(f, SelectorOf(tc))
    decreases |envs|
  {
    if envs != [] {
      var env := envs[|envs| - 1];
      RequestsMatchTheirSelector(tc, envs[..|envs| - 1], hasWorkload, versions, specOf);
      var added := EnvFilters(tc, env, versions, specOf);
      forall f <- added ensures IsLower(f.name) && Matches(f, SelectorOf(tc)) {
        var i :| 0 <= i < |added| && f == added[i];
        NewFilterMatches(tc, env, versions[i], specOf(env, versions[i]));
      }
    }
  }

  ghost predicate Reconciled(before: Store, after: Store, requested: seq<Filter>, sel: Selector) {
    exists existing :: Lists(existing, before, sel) && after == Execute(before, PlanFor(requested, existing))
  }

  // Created for this identity and traffic environment.
  predicate Ours(f: Filter, tc: Throttle) {
    && "createdFor" in f.labels && f.labels["createdFor"] == ToLower(tc.identity)
    && "createdForTrafficEnv" in f.labels && f.labels["createdForTrafficEnv"] == tc.trafficEnv
  }

  // What a cluster is to hold: nothing for a disabled or deleted config.
  ghost predicate Meant(f: Filter, tc: Throttle, deleted: bool, hasWorkload: string -> bool, versions: seq<string>, specOf: SpecOf) {
    !tc.disabled && !deleted && Requested(f, tc, hasWorkload, versions, specOf)
  }

  lemma MeantIff(tc: Throttle, deleted: bool, hasWorkload: string -> bool, versions: seq<string>, specOf: SpecOf, f: Filter)
    ensures f in RequestsFor(tc, deleted, hasWorkload, versions, specOf) <==> Meant(f, tc, deleted, hasWorkload, versions, specOf)
  {
    RequestedIff(tc, hasWorkload, versions, specOf, f);
  }

  // The handler's whole effect on one cluster. When no two environments and versions
  // make one name, the filters of this config in the cluster are afterwards exactly
  // those meant, if and only if no name of theirs was held by another's filter.
  // Filters of others never change, and a disabled or deleted config is left none.
  lemma HandledClusterConverges(before: Store, after: Store, tc: Throttle, deleted: bool, hasWorkload: string -> bool,
                                versions: seq<string>, specOf: SpecOf)
    requires WellKeyed(before) && LowerStore(before)
    requires Reconciled(before, after, RequestsFor(tc, deleted, hasWorkload, versions, specOf), SelectorOf(tc))
    ensures tc.disabled || deleted || NamesApart(tc, hasWorkload, versions) ==>
      ((forall f: Filter :: (Stored(after, f) && Ours(f, tc)) <==> Meant(f, tc, deleted, hasWorkload, versions, specOf))
       <==> forall f: Filter :: Meant(f, tc, deleted, hasWorkload, versions, specOf) && f.name in before ==> Ours(before[f.name], tc))
    ensures forall n <- before :: !Ours(before[n], tc) ==> n in after && after[n] == before[n]
    ensures tc.disabled || deleted ==> forall n <- after :: !Ours(after[n], tc)
  {
    var sel, requested := SelectorOf(tc), RequestsFor(tc, deleted, hasWorkload, versions, specOf);
    RequestsMatchTheirSelector(tc, tc.workloadEnvs, hasWorkload, versions, specOf);
    DistinctIffApart(tc, hasWorkload, versions, specOf);
    forall f: Filter ensures f in requested <==> Meant(f, tc, deleted, hasWorkload, versions, specOf) {
      MeantIff(tc, deleted, hasWorkload, versions, specOf, f);
    }
    var existing :| Lists(existing, before, sel) && after == Execute(before, PlanFor(requested, existing));
    WellKeyedAfter(before, requested, existing);
    hide Execute, PlanFor, Requests, Meant, NamesApart;
    if DistinctNames(requested) {
      ConvergesIffNamesAvailable(before, requested, existing, sel);
      ListedExactly(after, sel, requested);
    }
    forall n <- before ensures !Matches(before[n], sel) ==> n in after && after[n] == before[n] {
      ApplyFrame(before, requested, existing, sel, n);
    }
  }

  predicate Stored(s: Store, f: Filter) { f.name in s && s[f.name] == f }

  lemma ListedExactly(s: Store, sel: Selector, fs: seq<Filter>)
    requires WellKeyed(s)
    ensures Listed(s, sel) == (set f <- fs) <==>
      forall f: Filter :: (Stored(s, f) && Matches(f, sel)) <==> f in fs
  {
    forall f: Filter ensures f in Listed(s, sel) <==> Stored(s, f) && Matches(f, sel) {
      if f in Listed(s, sel) { var n :| n in s && Matches(s[n], sel) && s[n] == f; }
    }
    if forall f: Filter :: (Stored(s, f) && Matches(f, sel)) <==> f in fs {
      assert Listed(s, sel) == set f <- fs;
    }
  }

  lemma {:induction false} CreatedKeyed(s: Store, fs: seq<Filter>)
    requires WellKeyed(s)
    ensures WellKeyed(CreatedAll(s, fs)) && WellKeyed(UpdatedAll(s, fs)) && WellKeyed(DeletedAll(s, fs))
    decreases |fs|
  {
    if fs != [] { CreatedKeyed(s, fs[..|fs| - 1]); }
  }

  lemma WellKeyedAfter(s: Store, requested: seq<Filter>, existing: seq<Filter>)
    requires WellKeyed(s)
    ensures WellKeyed(Execute(s, PlanFor(requested, existing)))
  {
    var p := PlanFor(requested, existing);
    CreatedKeyed(s, p.create);
    CreatedKeyed(CreatedAll(s, p.create), p.update);
    CreatedKeyed(UpdatedAll(CreatedAll(s, p.create), p.update), p.delete);
  }

  // Every allowed, known cluster of the identity is reconciled; no other cluster changes.
  method HandleRateLimiter(tc: Throttle, deleted: bool, clusters: seq<string>, fleet: map<string, IstioClient>,
                           inScope: string -> bool, hasWorkload: (string, string) -> bool,
                           versions: seq<string>, specOf: SpecOf)
    requires forall c, d :: c in fleet && d in fleet && c != d ==> fleet[c] != fleet[d]
    requires forall i, j :: 0 <= i < j < |clusters| ==> clusters[i] != clusters[j]
    requires forall c <- fleet :: WellKeyed(fleet[c].store)
    modifies fleet.Values
    ensures forall c <- fleet :: c in clusters && inScope(c) ==>
              Reconciled(old(fleet[c].store), fleet[c].store,
                         RequestsFor(tc, deleted, e => hasWorkload(c, e), versions, specOf), SelectorOf(tc))
    ensures forall c <- fleet :: c !in clusters || !inScope(c) ==> fleet[c].store == old(fleet[c].store)
  {
    hide Reconciled, RequestsFor;
    for i := 0 to |clusters|
      invariant forall c <- fleet :: c in clusters[..i] && inScope(c) ==>
              Reconciled(old(fleet[c].store), fleet[c].store,
                         RequestsFor(tc, deleted, e => hasWorkload(c, e), versions, specOf), SelectorOf(tc))
      invariant forall c <- fleet :: c !in clusters[..i] || !inScope(c) ==> fleet[c].store == old(fleet[c].store)
    {
      var id := clusters[i];
      assert clusters[..i + 1] == clusters[..i] + [id];
      if !inScope(id) || id !in fleet { continue; }
      assert id !in clusters[..i];
      SyncCluster(tc, deleted, fleet[id], e => hasWorkload(id, e), versions, specOf);
    }
    assert clusters[..|clusters|] == clusters;
  }

  method SyncCluster(tc: Throttle, deleted: bool, rc: IstioClient, hasWorkload: string -> bool,
                     versions: seq<string>, specOf: SpecOf)
    requires WellKeyed(rc.store)
    modifies rc
    ensures Reconciled(old(rc.store), rc.store,
                       RequestsFor(tc, deleted, hasWorkload, versions, specOf), SelectorOf(tc))
  {
    if tc.disabled || deleted {
      var existing := rc.ListEnvoyFilters(SelectorOf(tc));
      rc.DeleteEnvoyFilters(existing);
      assert PlanFor([], existing) == Plan([], [], existing);
    } else {
      var requested, _ := BuildFilters(tc, hasWorkload, versions, specOf);
      var existing := rc.ListEnvoyFilters(SelectorOf(tc));
      var _ := rc.ApplyEnvoyFilters(requested, existing);
    }
  }
}
