// Compiling a traffic config into the rule list of a virtual service.
module VirtualService {
  import opened Wrappers
  import opened Text

  // ---------- the configuration ----------

  datatype Weight = Weight(name: string, weight: int)
  datatype AppOverride = AppOverride(assetAlias: string, weights: seq<Weight>)
  datatype TargetGroup = TargetGroup(name: string, weights: seq<Weight>, appOverrides: seq<AppOverride>)
  datatype Target = Target(name: string, meshDNS: string)
  datatype Config = Config(targetGroupSelector: string, targetSelector: string)
  datatype Route = Route(name: string, inbound: string, outbound: string, timeout: int,
                         workloadEnvSelectors: seq<string>, config: Option<seq<Config>>)
  datatype EdgeService = EdgeService(routes: seq<Route>, targets: Option<seq<Target>>,
                                     targetGroups: Option<seq<TargetGroup>>)
  datatype TrafficConfig = TrafficConfig(identity: string, workloadEnv: seq<string>,
                                         edgeService: Option<EdgeService>, suffix: string)

  function HostOf(tc: TrafficConfig, env: string): string { GetHost(env, ToLower(tc.identity), tc.suffix) }

  lemma HostOfEnv(tc: TrafficConfig, env: string)
    ensures HostOf(tc, env) == ToLower(env + "." + tc.identity + "." + tc.suffix)
  {
    HostInParts(env, tc.identity, tc.suffix);
    HostInParts(env, ToLower(tc.identity), tc.suffix);
    ToLowerIsLower(tc.identity);
    LowerFixed(ToLower(tc.identity));
  }

  // ---------- the rules ----------

  // A google.protobuf.Duration.
  datatype Duration = Duration(seconds: int, nanos: int)

  datatype Destination = Destination(host: string, weight: int)
  datatype HTTPRoute = HTTPRoute(name: string, prefix: string, authority: Option<string>,
                                 route: seq<Destination>, rewrite: Option<string>, timeout: Option<Duration>)

  // ---------- timeouts ----------

  // Go's division truncates toward zero.
  function Quo(a: int, b: int): int
    requires b > 0
  {
    if a >= 0 then a / b else -(-a / b)
  }

  function Rem(a: int, b: int): int
    requires b > 0
  {
    a - Quo(a, b) * b
  }

  function Nanoseconds(d: Duration): int { d.seconds * 1_000_000_000 + d.nanos }

  function GetRouteTimeout(route: Route): Duration {
    Duration(Quo(route.timeout, 1000), Rem(route.timeout, 1000) * 1000 * 1000)
  }

  // durationpb.New
  function NewDuration(nanoseconds: int): Duration {
    Duration(Quo(nanoseconds, 1_000_000_000), Rem(nanoseconds, 1_000_000_000))
  }

  function GetFinalRouteTimeout(timeout: Duration): Option<Duration> {
    if Nanoseconds(timeout) > 1_000_000 then Some(timeout) else None
  }

  // Seconds and nanoseconds of one sign, less than a second of the latter.
  predicate Normal(d: Duration) {
    -1_000_000_000 < d.nanos < 1_000_000_000 && (d.seconds > 0 ==> d.nanos >= 0) && (d.seconds < 0 ==> d.nanos <= 0)
  }

  // With targets a timeout counts milliseconds and those up to one are dropped;
  // without, the same number counts nanoseconds.
  lemma TimeoutUnits(route: Route)
    ensures Nanoseconds(GetRouteTimeout(route)) == route.timeout * 1_000_000
    ensures GetFinalRouteTimeout(GetRouteTimeout(route)).Some? <==> route.timeout > 1
    ensures Nanoseconds(NewDuration(route.timeout)) == route.timeout
    ensures GetFinalRouteTimeout(NewDuration(route.timeout)).Some? <==> route.timeout > 1_000_000
    ensures Normal(GetRouteTimeout(route)) && Normal(NewDuration(route.timeout))
  {
  }

  // ---------- which groups a route refers to ----------

  predicate Names(ws: seq<Weight>, name: string) { exists w <- ws :: w.name == name }

  predicate Selects(tg: TargetGroup, name: string) {
    Names(tg.weights, name) || exists o <- tg.appOverrides :: Names(o.weights, name)
  }

  predicate SelectsIn(tgs: seq<TargetGroup>, group: string, name: string) {
    exists tg <- tgs :: tg.name == group && Selects(tg, name)
  }

  predicate ConfigsRefer(cs: seq<Config>, tgs: seq<TargetGroup>, group: string) {
    exists c <- cs :: SelectsIn(tgs, group, c.targetGroupSelector)
  }

  // Some route of that name has a config selecting a weight of a group of that name.
  predicate Refers(routes: seq<Route>, tgs: seq<TargetGroup>, group: string, routeName: string) {
    exists r <- routes :: r.name == routeName && r.config.Some? && ConfigsRefer(r.config.value, tgs, group)
  }

  // The same by position: config j of route i, of that name, selects a weight or
  // an override weight of group h, of that name.
  lemma RefersByPosition(routes: seq<Route>, tgs: seq<TargetGroup>, group: string, routeName: string)
    ensures Refers(routes, tgs, group, routeName) <==>
      exists i, j, h, w: Weight ::
        && 0 <= i < |routes| && routes[i].name == routeName
        && routes[i].config.Some? && 0 <= j < |routes[i].config.value|
        && 0 <= h < |tgs| && tgs[h].name == group && w.name == routes[i].config.value[j].targetGroupSelector
        && (w in tgs[h].weights || exists o <- tgs[h].appOverrides :: w in o.weights)
  {
    if Refers(routes, tgs, group, routeName) {
      var r :| r in routes && r.name == routeName && r.config.Some? && ConfigsRefer(r.config.value, tgs, group);
      var c :| c in r.config.value && SelectsIn(tgs, group, c.targetGroupSelector);
      var tg :| tg in tgs && tg.name == group && Selects(tg, c.targetGroupSelector);
      var w := SelectedWeight(tg, c.targetGroupSelector);
      var i :| 0 <= i < |routes| && routes[i] == r;
      var j :| 0 <= j < |r.config.value| && r.config.value[j] == c;
      var h :| 0 <= h < |tgs| && tgs[h] == tg;
      assert w.name == routes[i].config.value[j].targetGroupSelector;
    }
  }

  lemma SelectedWeight(tg: TargetGroup, name: string) returns (w: Weight)
    requires Selects(tg, name)
    ensures w.name == name && (w in tg.weights || exists o <- tg.appOverrides :: w in o.weights)
  {
    if Names(tg.weights, name) {
      w :| w in tg.weights && w.name == name;
    } else {
      var o :| o in tg.appOverrides && Names(o.weights, name);
      w :| w in o.weights && w.name == name;
    }
  }

  lemma SelectsInMore(tgs: seq<TargetGroup>, tg: TargetGroup, group: string, name: string)
    ensures SelectsIn(tgs + [tg], group, name) <==> SelectsIn(tgs, group, name) || (tg.name == group && Selects(tg, name))
  {
    assert tg in tgs + [tg];
    assert forall x <- tgs :: x in tgs + [tg];
  }

  lemma RefersMore(routes: seq<Route>, r: Route, tgs: seq<TargetGroup>, group: string, name: string)
    ensures Refers(routes + [r], tgs, group, name) <==>
      Refers(routes, tgs, group, name) || (r.name == name && r.config.Some? && ConfigsRefer(r.config.value, tgs, group))
  {
    assert r in routes + [r];
    assert forall x <- routes :: x in routes + [r];
  }

  type RouteNames = map<string, seq<string>>

  predicate Listed(m: RouteNames, group: string, routeName: string) { group in m && routeName in m[group] }

  function Append(m: RouteNames, group: string, routeName: string): RouteNames {
    m[group := (if group in m then m[group] else []) + [routeName]]
  }

  lemma AppendLists(m: RouteNames, group: string, routeName: string, g: string, r: string)
    ensures Listed(Append(m, group, routeName), g, r) <==> Listed(m, g, r) || (g == group && r == routeName)
  {
  }

  // What one group adds for one config: the route's name, once for every weight selected.
  method AddSelected(m: RouteNames, ws: seq<Weight>, group: string, routeName: string, selector: string)
    returns (r: RouteNames)
    ensures forall g, n :: Listed(r, g, n) <==>
      Listed(m, g, n) || (g == group && n == routeName && Names(ws, selector))
  {
    r := m;
    for i := 0 to |ws|
      invariant forall g, n :: Listed(r, g, n) <==>
        Listed(m, g, n) || (g == group && n == routeName && Names(ws[..i], selector))
    {
      assert ws[..i + 1] == ws[..i] + [ws[i]];
      assert Names(ws[..i + 1], selector) <==> Names(ws[..i], selector) || ws[i].name == selector;
      if ws[i].name == selector {
        forall g, n ensures Listed(Append(r, group, routeName), g, n) <==> Listed(r, g, n) || (g == group && n == routeName) {
          AppendLists(r, group, routeName, g, n);
        }
        r := Append(r, group, routeName);
      }
    }
    assert ws[..|ws|] == ws;
  }

  method AddGroup(m: RouteNames, tg: TargetGroup, routeName: string, selector: string) returns (r: RouteNames)
    ensures forall g, n :: Listed(r, g, n) <==>
      Listed(m, g, n) || (g == tg.name && n == routeName && Selects(tg, selector))
  {
    r := AddSelected(m, tg.weights, tg.name, routeName, selector);
    var os := tg.appOverrides;
    for i := 0 to |os|
      invariant forall g, n :: Listed(r, g, n) <==>
        Listed(m, g, n) || (g == tg.name && n == routeName
                            && (Names(tg.weights, selector) || exists o <- os[..i] :: Names(o.weights, selector)))
    {
      assert os[..i + 1] == os[..i] + [os[i]];
      r := AddSelected(r, os[i].weights, tg.name, routeName, selector);
    }
    assert os[..|os|] == os;
  }

  method AddConfig(m: RouteNames, tgs: seq<TargetGroup>, routeName: string, selector: string) returns (r: RouteNames)
    ensures forall g, n :: Listed(r, g, n) <==> Listed(m, g, n) || (n == routeName && SelectsIn(tgs, g, selector))
  {
    r := m;
    for i := 0 to |tgs|
      invariant forall g, n :: Listed(r, g, n) <==> Listed(m, g, n) || (n == routeName && SelectsIn(tgs[..i], g, selector))
    {
      assert tgs[..i + 1] == tgs[..i] + [tgs[i]];
      forall g
        ensures SelectsIn(tgs[..i + 1], g, selector) <==>
          SelectsIn(tgs[..i], g, selector) || (g == tgs[i].name && Selects(tgs[i], selector))
      {
        SelectsInMore(tgs[..i], tgs[i], g, selector);
      }
      r := AddGroup(r, tgs[i], routeName, selector);
    }
    assert tgs[..|tgs|] == tgs;
  }

  method AddRoute(m: RouteNames, tgs: seq<TargetGroup>, routeName: string, cs: seq<Config>) returns (r: RouteNames)
    ensures forall g, n :: Listed(r, g, n) <==> Listed(m, g, n) || (n == routeName && ConfigsRefer(cs, tgs, g))
  {
    r := m;
    for i := 0 to |cs|
      invariant forall g, n :: Listed(r, g, n) <==> Listed(m, g, n) || (n == routeName && ConfigsRefer(cs[..i], tgs, g))
    {
      assert cs[..i + 1] == cs[..i] + [cs[i]];
      assert forall g :: ConfigsRefer(cs[..i + 1], tgs, g)
                    <==> ConfigsRefer(cs[..i], tgs, g) || SelectsIn(tgs, g, cs[i].targetGroupSelector);
      r := AddConfig(r, tgs, routeName, cs[i].targetGroupSelector);
    }
    assert cs[..|cs|] == cs;
  }

  method GetTargetGroupRouteNameMap(routes: seq<Route>, tgs: seq<TargetGroup>) returns (r: RouteNames)
    ensures forall g, n :: (g in r && n in r[g]) <==> Refers(routes, tgs, g, n)
  {
    r := map[];
    for i := 0 to |routes|
      invariant forall g, n :: Listed(r, g, n) <==> Refers(routes[..i], tgs, g, n)
    {
      var route := routes[i];
      assert routes[..i + 1] == routes[..i] + [route];
      forall g, n
        ensures Refers(routes[..i + 1], tgs, g, n) <==>
          Refers(routes[..i], tgs, g, n)
          || (n == route.name && route.config.Some? && ConfigsRefer(route.config.value, tgs, g))
      {
        RefersMore(routes[..i], route, tgs, g, n);
      }
      if route.config.Some? {
        r := AddRoute(r, tgs, route.name, route.config.value);
      }
    }
    assert routes[..|routes|] == routes;
  }

  // ---------- the weight indexes ----------

  type Weights = map<string, int>

  // Later entries of the same name win.
  function WeightMap(ws: seq<Weight>): Weights {
    if ws == [] then map[]
    else WeightMap(ws[..|ws| - 1])[ws[|ws| - 1].name := ws[|ws| - 1].weight]
  }

  predicate LastOfName(ws: seq<Weight>, k: nat) {
    k < |ws| && forall j :: k < j < |ws| ==> ws[j].name != ws[k].name
  }

  // A name has the weight of the last entry of that name.
  lemma {:induction false} WeightMapHolds(ws: seq<Weight>)
    ensures forall n :: n in WeightMap(ws) <==> exists w <- ws :: w.name == n
    ensures forall k: nat :: LastOfName(ws, k) ==> ws[k].name in WeightMap(ws) && WeightMap(ws)[ws[k].name] == ws[k].weight
    decreases |ws|
  {
    if ws != [] {
      var n := |ws| - 1;
      WeightMapHolds(ws[..n]);
      assert ws == ws[..n] + [ws[n]];
      forall k: nat | LastOfName(ws, k) && k < n ensures LastOfName(ws[..n], k) && ws[k].name != ws[n].name {}
    }
  }

  function OverrideMap(os: seq<AppOverride>): map<string, Weights> {
    if os == [] then map[]
    else OverrideMap(os[..|os| - 1])[os[|os| - 1].assetAlias := WeightMap(os[|os| - 1].weights)]
  }

  predicate LastOfAlias(os: seq<AppOverride>, k: nat) {
    k < |os| && forall j :: k < j < |os| ==> os[j].assetAlias != os[k].assetAlias
  }

  // An app has the weights of its last override.
  lemma {:induction false} OverrideMapHolds(os: seq<AppOverride>)
    ensures forall a :: a in OverrideMap(os) <==> exists o <- os :: o.assetAlias == a
    ensures forall k: nat :: LastOfAlias(os, k) ==>
      os[k].assetAlias in OverrideMap(os) && OverrideMap(os)[os[k].assetAlias] == WeightMap(os[k].weights)
    decreases |os|
  {
    if os != [] {
      var n := |os| - 1;
      OverrideMapHolds(os[..n]);
      assert os == os[..n] + [os[n]];
      forall k: nat | LastOfAlias(os, k) && k < n ensures LastOfAlias(os[..n], k) && os[k].assetAlias != os[n].assetAlias {}
    }
  }

  // The override map of the last group that has overrides and lists the route.
  function LastOverrides(tgs: seq<TargetGroup>, tgRoutes: RouteNames, name: string): Option<map<string, Weights>> {
    if tgs == [] then None
    else OverridesOr(tgs[|tgs| - 1], tgRoutes, name, LastOverrides(tgs[..|tgs| - 1], tgRoutes, name))
  }

  function OverridesOr(tg: TargetGroup, tgRoutes: RouteNames, name: string, before: Option<map<string, Weights>>)
    : Option<map<string, Weights>>
  {
    if tg.appOverrides != [] && Listed(tgRoutes, tg.name, name) then Some(OverrideMap(tg.appOverrides)) else before
  }

  // The same without the index: the last group with overrides that some route of
  // that name refers to.
  function DirectOverrides(tgs: seq<TargetGroup>, routes: seq<Route>, all: seq<TargetGroup>, name: string)
    : Option<map<string, Weights>>
  {
    if tgs == [] then None
    else
      var tg := tgs[|tgs| - 1];
      if tg.appOverrides != [] && Refers(routes, all, tg.name, name) then Some(OverrideMap(tg.appOverrides))
      else DirectOverrides(tgs[..|tgs| - 1], routes, all, name)
  }

  lemma {:induction false} IndexRefines(tgs: seq<TargetGroup>, routes: seq<Route>, all: seq<TargetGroup>,
                                        tgRoutes: RouteNames, name: string)
    requires forall g :: Listed(tgRoutes, g, name) <==> Refers(routes, all, g, name)
    ensures LastOverrides(tgs, tgRoutes, name) == DirectOverrides(tgs, routes, all, name)
    decreases |tgs|
  {
    if tgs != [] { IndexRefines(tgs[..|tgs| - 1], routes, all, tgRoutes, name); }
  }

  // Group k has overrides and is referred to, and no later group is.
  predicate LastReferred(tgs: seq<TargetGroup>, routes: seq<Route>, all: seq<TargetGroup>, name: string, k: nat) {
    && k < |tgs| && tgs[k].appOverrides != [] && Refers(routes, all, tgs[k].name, name)
    && forall j :: k < j < |tgs| ==> tgs[j].appOverrides == [] || !Refers(routes, all, tgs[j].name, name)
  }

  lemma {:induction false} LastGroupDecides(tgs: seq<TargetGroup>, routes: seq<Route>, all: seq<TargetGroup>, name: string, k: nat)
    requires LastReferred(tgs, routes, all, name, k)
    ensures DirectOverrides(tgs, routes, all, name) == Some(OverrideMap(tgs[k].appOverrides))
    decreases |tgs|
  {
    hide Refers, OverrideMap;
    var n := |tgs| - 1;
    if k < n { LastGroupDecides(tgs[..n], routes, all, name, k); }
  }

  lemma {:induction false} SomeGroupDecides(tgs: seq<TargetGroup>, routes: seq<Route>, all: seq<TargetGroup>, name: string)
    ensures DirectOverrides(tgs, routes, all, name).Some? ==> exists k: nat :: LastReferred(tgs, routes, all, name, k)
    decreases |tgs|
  {
    hide Refers, OverrideMap;
    if DirectOverrides(tgs, routes, all, name).Some? {
      var n := |tgs| - 1;
      if tgs[n].appOverrides != [] && Refers(routes, all, tgs[n].name, name) {
        assert LastReferred(tgs, routes, all, name, n);
      } else {
        SomeGroupDecides(tgs[..n], routes, all, name);
        var k: nat :| LastReferred(tgs[..n], routes, all, name, k);
        assert LastReferred(tgs, routes, all, name, k);
      }
    }
  }

  function ServiceDial(tgs: seq<TargetGroup>): Weights {
    if tgs == [] then map[] else ServiceDial(tgs[..|tgs| - 1]) + WeightMap(tgs[|tgs| - 1].weights)
  }

  // Weight k of group g, with no later weight of that name in any group.
  predicate LastWeight(tgs: seq<TargetGroup>, g: nat, k: nat) {
    && g < |tgs| && LastOfName(tgs[g].weights, k)
    && forall h :: g < h < |tgs| ==> forall w <- tgs[h].weights :: w.name != tgs[g].weights[k].name
  }

  lemma {:induction false} DialHolds(tgs: seq<TargetGroup>, g: nat, k: nat)
    requires LastWeight(tgs, g, k)
    ensures var w := tgs[g].weights[k]; w.name in ServiceDial(tgs) && ServiceDial(tgs)[w.name] == w.weight
    decreases |tgs|
  {
    var n := |tgs| - 1;
    WeightMapHolds(tgs[n].weights);
    if g < n {
      assert LastWeight(tgs[..n], g, k);
      DialHolds(tgs[..n], g, k);
    }
  }

  lemma {:induction false} DialHoldsNoOther(tgs: seq<TargetGroup>, name: string)
    requires name in ServiceDial(tgs)
    ensures exists tg <- tgs :: exists w <- tg.weights :: w.name == name
    decreases |tgs|
  {
    var n := |tgs| - 1;
    WeightMapHolds(tgs[n].weights);
    if name in WeightMap(tgs[n].weights) {
      assert tgs[n] in tgs;
    } else {
      DialHoldsNoOther(tgs[..n], name);
    }
  }

  function Lookup<T>(m: map<string, T>, k: string): Option<T> { if k in m then Some(m[k]) else None }

  type AppDialing = map<string, map<string, Weights>>

  method AddWeights(m: Weights, ws: seq<Weight>) returns (r: Weights)
    ensures r == m + WeightMap(ws)
  {
    r := m;
    for i := 0 to |ws|
      invariant r == m + WeightMap(ws[..i])
    {
      assert ws[..i + 1][..i] == ws[..i];
      r := r[ws[i].name := ws[i].weight];
    }
    assert ws[..|ws|] == ws;
  }

  // Each route listed for the group gets the group's overrides.
  method Assign(m: AppDialing, names: seq<string>, overrides: map<string, Weights>) returns (r: AppDialing)
    ensures forall n :: Lookup(r, n) == if n in names then Some(overrides) else Lookup(m, n)
  {
    r := m;
    for i := 0 to |names|
      invariant forall n :: Lookup(r, n) == if n in names[..i] then Some(overrides) else Lookup(m, n)
    {
      assert names[..i + 1] == names[..i] + [names[i]];
      r := r[names[i] := overrides];
    }
    assert names[..|names|] == names;
  }

  // One group's overrides: assigned anew after each of them.
  method AssignOverrides(m: AppDialing, tg: TargetGroup, tgRoutes: RouteNames) returns (r: AppDialing)
    ensures forall n :: Lookup(r, n) == OverridesOr(tg, tgRoutes, n, Lookup(m, n))
  {
    r := m;
    var os := tg.appOverrides;
    var overrides := map[];
    for i := 0 to |os|
      invariant overrides == OverrideMap(os[..i])
      invariant forall n :: Lookup(r, n) == OverridesOr(tg.(appOverrides := os[..i]), tgRoutes, n, Lookup(m, n))
    {
      assert os[..i + 1][..i] == os[..i];
      var weights := AddWeights(map[], os[i].weights);
      assert map[] + WeightMap(os[i].weights) == WeightMap(os[i].weights);
      overrides := overrides[os[i].assetAlias := weights];
      if tg.name in tgRoutes {
        r := Assign(r, tgRoutes[tg.name], overrides);
      }
    }
    assert os[..|os|] == os;
    assert tg.(appOverrides := os) == tg;
  }

  method BuildTargetGroupRouteNameMap(tgs: seq<TargetGroup>, tgRoutes: RouteNames)
    returns (appDialing: AppDialing, serviceDial: Weights)
    ensures forall n :: Lookup(appDialing, n) == LastOverrides(tgs, tgRoutes, n)
    ensures serviceDial == ServiceDial(tgs)
  {
    appDialing, serviceDial := map[], map[];
    for i := 0 to |tgs|
      invariant forall n :: Lookup(appDialing, n) == LastOverrides(tgs[..i], tgRoutes, n)
      invariant serviceDial == ServiceDial(tgs[..i])
    {
      assert tgs[..i + 1][..i] == tgs[..i];
      appDialing := AssignOverrides(appDialing, tgs[i], tgRoutes);
      serviceDial := AddWeights(serviceDial, tgs[i].weights);
    }
    assert tgs[..|tgs|] == tgs;
  }
}
