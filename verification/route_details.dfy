// Where each route's traffic goes: its service destinations, and for each app
// with overrides the destinations of that app.
module RouteDetailing {
  import opened Wrappers
  import opened Text
  import opened Iteration
  import opened VirtualService

  datatype EndpointWeight = EndpointWeight(endpoint: string, weight: int)

  datatype RouteTargetInfo = RouteTargetInfo(targetGroupSelector: string, meshEndpoint: string)

  datatype RouteDetails = RouteDetails(
    routeName: string, inbound: string, outbound: string, timeout: Duration,
    service: seq<EndpointWeight>, apps: map<string, seq<EndpointWeight>>)

  // ---------- endpoints ----------

  function FirstTarget(targets: seq<Target>, name: string): Option<Target> {
    if targets == [] then None
    else if targets[0].name == name then Some(targets[0])
    else FirstTarget(targets[1..], name)
  }

  // The endpoint of a config; a selector that names no target leaves the bare
  // environment.
  function MeshDNS(tc: TrafficConfig, targets: Option<seq<Target>>, route: Route, c: Config): string {
    if targets.None? || route.workloadEnvSelectors == [] then ""
    else
      var env := route.workloadEnvSelectors[0];
      match FirstTarget(targets.value, c.targetSelector)
      case Some(target) => if target.meshDNS == "" then HostOf(tc, env) else ToLower(target.meshDNS)
      case None => env
  }

  // By position: the first target of the selected name decides, by its mesh DNS if
  // it has one and else by the host of the route's first environment; without such
  // a target it is that environment's bare name.
  predicate EndpointFits(endpoint: string, tc: TrafficConfig, targets: Option<seq<Target>>, route: Route, c: Config) {
    if targets.None? || route.workloadEnvSelectors == [] then endpoint == ""
    else
      var ts, env := targets.value, route.workloadEnvSelectors[0];
      && ((forall i :: 0 <= i < |ts| ==> ts[i].name != c.targetSelector) ==> endpoint == env)
      && (forall i :: 0 <= i < |ts| && ts[i].name == c.targetSelector
                      && (forall j :: 0 <= j < i ==> ts[j].name != c.targetSelector) ==>
            endpoint == if ts[i].meshDNS != "" then ToLower(ts[i].meshDNS) else ToLower(env + "." + tc.identity + "." + tc.suffix))
  }

  lemma {:induction false} FirstTargetIs(ts: seq<Target>, name: string, i: nat)
    requires i < |ts| && ts[i].name == name && forall j :: 0 <= j < i ==> ts[j].name != name
    ensures FirstTarget(ts, name) == Some(ts[i])
    decreases i
  {
    if i > 0 { FirstTargetIs(ts[1..], name, i - 1); }
  }

  lemma {:induction false} NoTargetIs(ts: seq<Target>, name: string)
    requires forall i :: 0 <= i < |ts| ==> ts[i].name != name
    ensures FirstTarget(ts, name) == None
    decreases |ts|
  {
    if ts != [] { NoTargetIs(ts[1..], name); }
  }

  lemma MeshDNSFits(tc: TrafficConfig, targets: Option<seq<Target>>, route: Route, c: Config)
    ensures EndpointFits(MeshDNS(tc, targets, route, c), tc, targets, route, c)
  {
    if targets.Some? && route.workloadEnvSelectors != [] {
      var ts, env := targets.value, route.workloadEnvSelectors[0];
      HostOfEnv(tc, env);
      hide FirstTarget, HostOf, ToLower;
      if forall i :: 0 <= i < |ts| ==> ts[i].name != c.targetSelector { NoTargetIs(ts, c.targetSelector); }
      forall i | 0 <= i < |ts| && ts[i].name == c.targetSelector && forall j :: 0 <= j < i ==> ts[j].name != c.targetSelector
        ensures FirstTarget(ts, c.targetSelector) == Some(ts[i])
      {
        FirstTargetIs(ts, c.targetSelector, i);
      }
    }
  }

  method GetMeshDNSForTargetGroup(tc: TrafficConfig, targets: Option<seq<Target>>, route: Route, c: Config)
    returns (endpoint: string)
    ensures endpoint == MeshDNS(tc, targets, route, c) && EndpointFits(endpoint, tc, targets, route, c)
  {
    MeshDNSFits(tc, targets, route, c);
    if targets.None? { return ""; }
    if |route.workloadEnvSelectors| == 0 { return ""; }
    var env := route.workloadEnvSelectors[0];
    var ts := targets.value;
    assert ts[0..] == ts;
    for i := 0 to |ts|
      invariant FirstTarget(ts, c.targetSelector) == FirstTarget(ts[i..], c.targetSelector)
    {
      if ts[i].name == c.targetSelector {
        if |ts[i].meshDNS| == 0 { return GetHost(env, ToLower(tc.identity), tc.suffix); }
        return ToLower(ts[i].meshDNS);
      }
    }
    return env;
  }

  function Infos(tc: TrafficConfig, targets: Option<seq<Target>>, route: Route): seq<RouteTargetInfo> {
    InfosOf(tc, targets, route, if route.config.Some? then route.config.value else [])
  }

  function InfosOf(tc: TrafficConfig, targets: Option<seq<Target>>, route: Route, cs: seq<Config>): (r: seq<RouteTargetInfo>)
    ensures |r| == |cs|
    ensures forall i :: 0 <= i < |cs| ==>
      r[i] == RouteTargetInfo(cs[i].targetGroupSelector, MeshDNS(tc, targets, route, cs[i]))
  {
    seq(|cs|, i requires 0 <= i < |cs| => RouteTargetInfo(cs[i].targetGroupSelector, MeshDNS(tc, targets, route, cs[i])))
  }

  // ---------- service dial ----------

  // The configs that select a weight, in order, with the weights they select.
  function Dialled(dial: Weights, infos: seq<RouteTargetInfo>): seq<EndpointWeight> {
    if infos == [] then []
    else
      var last := infos[|infos| - 1];
      Dialled(dial, infos[..|infos| - 1])
      + if last.targetGroupSelector in dial then [EndpointWeight(last.meshEndpoint, dial[last.targetGroupSelector])] else []
  }

  predicate SoleDefault(infos: seq<RouteTargetInfo>) { |infos| == 1 && infos[0].targetGroupSelector == "" }

  // A sole config without a selector takes everything.
  function ServiceDestinations(dial: Weights, infos: seq<RouteTargetInfo>): seq<EndpointWeight> {
    if SoleDefault(infos) then [EndpointWeight(infos[0].meshEndpoint, 100)] else Dialled(dial, infos)
  }

  // By position: destination j comes from config picked[j], in order, and every
  // config that selects a weight is picked.
  predicate Dials(ds: seq<EndpointWeight>, dial: Weights, infos: seq<RouteTargetInfo>, picked: seq<nat>) {
    && |ds| == |picked|
    && (forall j :: 0 <= j < |ds| ==>
          picked[j] < |infos| && infos[picked[j]].targetGroupSelector in dial
          && ds[j].endpoint == infos[picked[j]].meshEndpoint
          && ds[j].weight == dial[infos[picked[j]].targetGroupSelector])
    && (forall j, k :: 0 <= j < k < |picked| ==> picked[j] < picked[k])
    && (forall i: nat :: i < |infos| && infos[i].targetGroupSelector in dial ==> i in picked)
  }

  lemma {:induction false} DialledDials(dial: Weights, infos: seq<RouteTargetInfo>) returns (picked: seq<nat>)
    ensures Dials(Dialled(dial, infos), dial, infos, picked)
    decreases |infos|
  {
    picked := [];
    if infos != [] {
      var n := |infos| - 1;
      picked := DialledDials(dial, infos[..n]);
      DialsMore(Dialled(dial, infos[..n]), dial, infos, picked);
      if infos[n].targetGroupSelector in dial { picked := picked + [n]; }
    }
  }

  lemma DialsMore(ds: seq<EndpointWeight>, dial: Weights, infos: seq<RouteTargetInfo>, picked: seq<nat>)
    requires infos != [] && Dials(ds, dial, infos[..|infos| - 1], picked)
    ensures var last := infos[|infos| - 1];
            if last.targetGroupSelector in dial
            then Dials(ds + [EndpointWeight(last.meshEndpoint, dial[last.targetGroupSelector])], dial, infos, picked + [|infos| - 1])
            else Dials(ds, dial, infos, picked)
  {
    var n, last := |infos| - 1, infos[|infos| - 1];
    assert forall i :: 0 <= i < n ==> infos[i] == infos[..n][i];
    if last.targetGroupSelector in dial {
      var all := picked + [n];
      assert all[|picked|] == n;
      forall i: nat | i < |infos| && infos[i].targetGroupSelector in dial ensures i in all {
        if i < n {
          assert i in picked;
          var k :| 0 <= k < |picked| && picked[k] == i;
          assert all[k] == i;
        }
      }
    }
  }

  method ConstructServiceDialRoute(dial: Weights, infos: seq<RouteTargetInfo>)
    returns (r: seq<EndpointWeight>, ghost picked: seq<nat>)
    ensures r == ServiceDestinations(dial, infos)
    ensures if |infos| == 1 && infos[0].targetGroupSelector == ""
            then |r| == 1 && r[0].endpoint == infos[0].meshEndpoint && r[0].weight == 100
            else Dials(r, dial, infos, picked)
  {
    picked := DialledDials(dial, infos);
    r := [];
    if |infos| == 1 && infos[0].targetGroupSelector == "" {
      r := r + [EndpointWeight(infos[0].meshEndpoint, 100)];
      return;
    }
    for i := 0 to |infos|
      invariant r == Dialled(dial, infos[..i])
    {
      assert infos[..i + 1][..i] == infos[..i];
      if infos[i].targetGroupSelector in dial {
        r := r + [EndpointWeight(infos[i].meshEndpoint, dial[infos[i].targetGroupSelector])];
      }
    }
    assert infos[..|infos|] == infos;
  }

  // ---------- app dial ----------

  // What the configs selecting one of these names receive.
  function SelectedBy(weights: Weights, names: set<string>, infos: seq<RouteTargetInfo>): multiset<EndpointWeight>
    requires names <= weights.Keys
  {
    if infos == [] then multiset{}
    else
      var last := infos[|infos| - 1];
      SelectedBy(weights, names, infos[..|infos| - 1])
      + if last.targetGroupSelector in names
        then multiset{EndpointWeight(last.meshEndpoint, weights[last.targetGroupSelector])}
        else multiset{}
  }

  // One (endpoint, weight) for every config whose selector the override names.
  function AppDestinations(weights: Weights, infos: seq<RouteTargetInfo>): multiset<EndpointWeight> {
    SelectedBy(weights, weights.Keys, infos)
  }

  // Summing config by config is summing name by name.
  lemma {:induction false} OneNameMore(weights: Weights, names: set<string>, name: string, infos: seq<RouteTargetInfo>)
    requires names <= weights.Keys && name in weights && name !in names
    ensures SelectedBy(weights, names + {name}, infos)
         == SelectedBy(weights, names, infos) + SelectedBy(weights, {name}, infos)
    decreases |infos|
  {
    if infos != [] { OneNameMore(weights, names, name, infos[..|infos| - 1]); }
  }

  lemma {:induction false} NoNames(weights: Weights, infos: seq<RouteTargetInfo>)
    ensures SelectedBy(weights, {}, infos) == multiset{}
    decreases |infos|
  {
    if infos != [] { NoNames(weights, infos[..|infos| - 1]); }
  }

  // What config i gets if its selector is one of the names.
  predicate DrawnFrom(d: EndpointWeight, weights: Weights, names: set<string>, infos: seq<RouteTargetInfo>, i: nat)
    requires names <= weights.Keys
  {
    && i < |infos| && infos[i].targetGroupSelector in names
    && d.endpoint == infos[i].meshEndpoint && d.weight == weights[infos[i].targetGroupSelector]
  }

  // By position: each destination comes from a config of its own, and every config
  // whose selector is one of the names has one.
  predicate Draws(ds: seq<EndpointWeight>, weights: Weights, names: set<string>, infos: seq<RouteTargetInfo>, picked: seq<nat>)
    requires names <= weights.Keys
  {
    && |ds| == |picked| && NoRepeats(picked)
    && (forall j :: 0 <= j < |ds| ==> DrawnFrom(ds[j], weights, names, infos, picked[j]))
    && (forall i: nat :: i < |infos| && infos[i].targetGroupSelector in names ==> i in picked)
  }

  lemma InsertDraws(rest: seq<EndpointWeight>, weights: Weights, names: set<string>, infos: seq<RouteTargetInfo>, picked: seq<nat>,
                    j: nat, e: EndpointWeight)
    requires names <= weights.Keys && infos != [] && j <= |rest| == |picked| && DrawnFrom(e, weights, names, infos, |infos| - 1)
    requires Draws(rest, weights, names, infos[..|infos| - 1], picked)
    ensures Draws(Insert(rest, j, e), weights, names, infos, Insert<nat>(picked, j, |infos| - 1))
  {
    var n: nat := |infos| - 1;
    assert n !in picked;
    InsertNoRepeats(picked, j, n);
    InsertHolds(picked, j, n);
    hide NoRepeats;
    var ds, all := Insert(rest, j, e), Insert<nat>(picked, j, n);
    forall k: nat | k < |ds| ensures DrawnFrom(ds[k], weights, names, infos, all[k]) {
      InsertAt(rest, j, e, k);
      InsertAt(picked, j, n, k);
    }
  }

  // A list that is the selected destinations, in whatever order.
  lemma {:induction false} SelectedDraws(ds: seq<EndpointWeight>, weights: Weights, names: set<string>, infos: seq<RouteTargetInfo>)
    returns (picked: seq<nat>)
    requires names <= weights.Keys && multiset(ds) == SelectedBy(weights, names, infos)
    ensures |picked| == |ds| && Draws(ds, weights, names, infos, picked)
    decreases |infos|
  {
    if infos == [] {
      picked := [];
      NoneSelected(ds, weights, names);
    } else {
      LastSelected(weights, names, infos);
      hide Draws, DrawnFrom, Insert, SelectedBy;
      var n: nat := |infos| - 1;
      if infos[n].targetGroupSelector in names {
        var e := EndpointWeight(infos[n].meshEndpoint, weights[infos[n].targetGroupSelector]);
        var j := Whereabouts(ds, e, SelectedBy(weights, names, infos[..n]));
        var before := SelectedDraws(ds[..j] + ds[j + 1..], weights, names, infos[..n]);
        InsertDraws(ds[..j] + ds[j + 1..], weights, names, infos, before, j, e);
        picked := Insert<nat>(before, j, n);
      } else {
        picked := SelectedDraws(ds, weights, names, infos[..n]);
        DrawsMore(ds, weights, names, infos, picked);
      }
    }
  }

  lemma NoneSelected(ds: seq<EndpointWeight>, weights: Weights, names: set<string>)
    requires names <= weights.Keys && multiset(ds) == multiset{}
    ensures ds == [] && Draws(ds, weights, names, [], [])
  {
    assert |ds| == |multiset(ds)| == 0;
  }

  lemma LastSelected(weights: Weights, names: set<string>, infos: seq<RouteTargetInfo>)
    requires names <= weights.Keys && infos != []
    ensures var n := |infos| - 1;
            if infos[n].targetGroupSelector in names then
              var e := EndpointWeight(infos[n].meshEndpoint, weights[infos[n].targetGroupSelector]);
              SelectedBy(weights, names, infos) == SelectedBy(weights, names, infos[..n]) + multiset{e}
              && DrawnFrom(e, weights, names, infos, n)
            else SelectedBy(weights, names, infos) == SelectedBy(weights, names, infos[..n])
  {
  }

  lemma Whereabouts(ds: seq<EndpointWeight>, e: EndpointWeight, others: multiset<EndpointWeight>) returns (j: nat)
    requires multiset(ds) == others + multiset{e}
    ensures j < |ds| && ds == Insert(ds[..j] + ds[j + 1..], j, e) && multiset(ds[..j] + ds[j + 1..]) == others
  {
    assert e in multiset(ds);
    j :| 0 <= j < |ds| && ds[j] == e;
    assert ds == Insert(ds[..j] + ds[j + 1..], j, e);
    InsertHolds(ds[..j] + ds[j + 1..], j, e);
    assert multiset(ds[..j] + ds[j + 1..]) == multiset(ds) - multiset{e};
  }

  lemma DrawsMore(ds: seq<EndpointWeight>, weights: Weights, names: set<string>, infos: seq<RouteTargetInfo>, picked: seq<nat>)
    requires names <= weights.Keys && infos != [] && infos[|infos| - 1].targetGroupSelector !in names
    requires Draws(ds, weights, names, infos[..|infos| - 1], picked)
    ensures Draws(ds, weights, names, infos, picked)
  {
    hide NoRepeats;
    forall j | 0 <= j < |ds| ensures DrawnFrom(ds[j], weights, names, infos, picked[j]) {
      assert DrawnFrom(ds[j], weights, names, infos[..|infos| - 1], picked[j]);
    }
  }

  method SelectedByName(weights: Weights, name: string, infos: seq<RouteTargetInfo>) returns (r: seq<EndpointWeight>)
    requires name in weights
    ensures multiset(r) == SelectedBy(weights, {name}, infos)
  {
    r := [];
    for i := 0 to |infos|
      invariant multiset(r) == SelectedBy(weights, {name}, infos[..i])
    {
      assert infos[..i + 1][..i] == infos[..i];
      if infos[i].targetGroupSelector == name {
        r := r + [EndpointWeight(infos[i].meshEndpoint, weights[name])];
      }
    }
    assert infos[..|infos|] == infos;
  }

  method SelectedByAll(weights: Weights, infos: seq<RouteTargetInfo>) returns (r: seq<EndpointWeight>)
    ensures multiset(r) == AppDestinations(weights, infos)
  {
    r := [];
    var names := InSomeOrder(weights.Keys);
    NoNames(weights, infos);
    assert Elements(names[..0]) == {};
    for i := 0 to |names|
      invariant Elements(names[..i]) <= weights.Keys
      invariant multiset(r) == SelectedBy(weights, Elements(names[..i]), infos)
    {
      assert names[..i + 1] == names[..i] + [names[i]];
      assert Elements(names[..i + 1]) == Elements(names[..i]) + {names[i]};
      assert names[i] in Elements(names) && names[i] !in names[..i];
      OneNameMore(weights, Elements(names[..i]), names[i], infos);
      var more := SelectedByName(weights, names[i], infos);
      r := r + more;
    }
    assert names[..|names|] == names;
  }

  // The apps with a destination.
  function AppsOf(index: map<string, Weights>, infos: seq<RouteTargetInfo>): set<string> {
    set a <- index | AppDestinations(index[a], infos) != multiset{}
  }

  // Those apps, each with its destinations in any order.
  predicate AppsDial(apps: map<string, seq<EndpointWeight>>, index: map<string, Weights>, infos: seq<RouteTargetInfo>) {
    apps.Keys == AppsOf(index, infos)
    && forall a <- apps :: a in index && multiset(apps[a]) == AppDestinations(index[a], infos)
  }

  // The apps are those with an override that names a config's selector.
  lemma AppsByConfig(index: map<string, Weights>, infos: seq<RouteTargetInfo>, a: string)
    ensures a in AppsOf(index, infos) <==>
      a in index && exists i :: 0 <= i < |infos| && infos[i].targetGroupSelector in index[a]
  {
    if a in index {
      var weights := index[a];
      NothingFrom(weights, infos);
      if i: nat :| i < |infos| && infos[i].targetGroupSelector in weights { SomethingFrom(weights, infos, i); }
    }
  }

  lemma {:induction false} NothingFrom(weights: Weights, infos: seq<RouteTargetInfo>)
    ensures (forall i :: 0 <= i < |infos| ==> infos[i].targetGroupSelector !in weights) ==> AppDestinations(weights, infos) == multiset{}
    decreases |infos|
  {
    if infos != [] && forall i :: 0 <= i < |infos| ==> infos[i].targetGroupSelector !in weights {
      NothingFrom(weights, infos[..|infos| - 1]);
    }
  }

  lemma {:induction false} SomethingFrom(weights: Weights, infos: seq<RouteTargetInfo>, i: nat)
    requires i < |infos| && infos[i].targetGroupSelector in weights
    ensures AppDestinations(weights, infos) != multiset{}
    decreases |infos|
  {
    var n := |infos| - 1;
    if i < n {
      SomethingFrom(weights, infos[..n], i);
      var e :| e in AppDestinations(weights, infos[..n]);
      assert e in AppDestinations(weights, infos);
    } else {
      assert EndpointWeight(infos[n].meshEndpoint, weights[infos[n].targetGroupSelector]) in AppDestinations(weights, infos);
    }
  }

  method ConstructAppDialRoutes(index: map<string, Weights>, infos: seq<RouteTargetInfo>)
    returns (apps: map<string, seq<EndpointWeight>>)
    ensures AppsDial(apps, index, infos)
  {
    apps := map[];
    var aliases := InSomeOrder(index.Keys);
    for i := 0 to |aliases|
      invariant forall a :: a in apps <==> a in aliases[..i] && a in index && AppDestinations(index[a], infos) != multiset{}
      invariant forall a <- apps :: multiset(apps[a]) == AppDestinations(index[a], infos)
    {
      assert aliases[..i + 1] == aliases[..i] + [aliases[i]];
      assert aliases[i] in Elements(aliases);
      var list := SelectedByAll(index[aliases[i]], infos);
      assert list == [] <==> multiset(list) == multiset{} by { if list != [] { assert list[0] in multiset(list); } }
      if |list| != 0 {
        apps := apps[aliases[i] := list];
      }
    }
    forall a | a in index ensures a in aliases[..|aliases|] { assert a in Elements(aliases); }
    assert apps.Keys == AppsOf(index, infos);
  }

  // ---------- all routes ----------

  function IndexOf(appDialing: AppDialing, name: string): map<string, Weights> {
    OrEmpty(Lookup(appDialing, name))
  }

  function OrEmpty(index: Option<map<string, Weights>>): map<string, Weights> {
    if index.Some? then index.value else map[]
  }

  // What is known of a route once its configs have been looked at.
  predicate Detailed(d: RouteDetails, tc: TrafficConfig, targets: Option<seq<Target>>, route: Route,
                     index: map<string, Weights>, dial: Weights)
  {
    && d.routeName == route.name && d.inbound == route.inbound && d.outbound == route.outbound
    && d.timeout == GetRouteTimeout(route)
    && d.service == ServiceDestinations(dial, Infos(tc, targets, route))
    && AppsDial(d.apps, index, Infos(tc, targets, route))
  }

  method CollectInfos(tc: TrafficConfig, targets: Option<seq<Target>>, route: Route, cs: seq<Config>)
    returns (infos: seq<RouteTargetInfo>)
    ensures infos == InfosOf(tc, targets, route, cs)
  {
    hide MeshDNS, EndpointFits;
    infos := [];
    for i := 0 to |cs|
      invariant infos == InfosOf(tc, targets, route, cs)[..i]
    {
      var endpoint := GetMeshDNSForTargetGroup(tc, targets, route, cs[i]);
      infos := infos + [RouteTargetInfo(cs[i].targetGroupSelector, endpoint)];
    }
  }

  // What is known of each config.
  lemma InfosFit(tc: TrafficConfig, targets: Option<seq<Target>>, route: Route, cs: seq<Config>, i: nat)
    requires i < |cs|
    ensures InfosOf(tc, targets, route, cs)[i].targetGroupSelector == cs[i].targetGroupSelector
    ensures EndpointFits(InfosOf(tc, targets, route, cs)[i].meshEndpoint, tc, targets, route, cs[i])
  {
    MeshDNSFits(tc, targets, route, cs[i]);
  }

  lemma NothingSelected(index: map<string, Weights>)
    ensures AppsDial(map[], index, [])
  {
    var none: map<string, seq<EndpointWeight>> := map[];
    assert none.Keys == AppsOf(index, []);
  }

  method GetCombinedRouteDetails(tc: TrafficConfig, targets: Option<seq<Target>>, routes: seq<Route>,
                                 appDialing: AppDialing, dial: Weights)
    returns (all: seq<RouteDetails>)
    ensures |all| == |routes|
    ensures forall k :: 0 <= k < |routes| ==> Detailed(all[k], tc, targets, routes[k], IndexOf(appDialing, routes[k].name), dial)
  {
    all := [];
    for i := 0 to |routes|
      invariant |all| == i
      invariant forall k :: 0 <= k < i ==> Detailed(all[k], tc, targets, routes[k], IndexOf(appDialing, routes[k].name), dial)
    {
      var route := routes[i];
      var d := RouteDetails(route.name, route.inbound, route.outbound, GetRouteTimeout(route), [], map[]);
      if route.config.None? {
        NothingSelected(IndexOf(appDialing, route.name));
      } else {
        var infos := CollectInfos(tc, targets, route, route.config.value);
        var apps := ConstructAppDialRoutes(IndexOf(appDialing, route.name), infos);
        var service, _ := ConstructServiceDialRoute(dial, infos);
        d := d.(service := service, apps := apps);
      }
      all := all + [d];
    }
  }
}
