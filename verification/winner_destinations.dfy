// Where the winning rule of a route sends a request, config by config.
module WinnerDestinations {
  import opened Wrappers
  import opened Text
  import opened Iteration
  import opened VirtualService
  import opened RouteDetailing
  import opened RoutingRules
  import opened Routing

  // The first environment of the first route of the name that has one.
  function FirstEnv(routes: seq<Route>, name: string): Option<string> {
    if routes == [] then None
    else
      var last := routes[|routes| - 1];
      if FirstEnv(routes[..|routes| - 1], name).Some? then FirstEnv(routes[..|routes| - 1], name)
      else if last.name == name && last.workloadEnvSelectors != [] then Some(last.workloadEnvSelectors[0])
      else None
  }

  lemma {:induction false} EmptyRulesStart(tc: TrafficConfig, routes: seq<Route>, name: string, timeout: Duration)
    ensures var rules := EmptyRules(tc, routes, name, timeout);
            match FirstEnv(routes, name)
            case Some(env) => rules != [] && rules[0].route == [Destination(HostOf(tc, env), 0)]
            case None => rules == []
    decreases |routes|
  {
    if routes != [] { EmptyRulesStart(tc, routes[..|routes| - 1], name, timeout); }
  }

  // Where the first rule of a route's block sends a request: to one of the apps
  // with overrides, else by the service weights; without either, or without
  // targets, to the first environment of the route's name.
  lemma WinnerSendsTo(block: seq<HTTPRoute>, tc: TrafficConfig, es: EdgeService, route: Route)
    requires BlockFor(block, tc, es, route) && block != []
    ensures if Falls(tc, es, route) then
              FirstEnv(es.routes, route.name).Some?
              && block[0].route == [Destination(HostOf(tc, FirstEnv(es.routes, route.name).value), 0)]
            else Targeted(es)
    ensures Targeted(es) && !Falls(tc, es, route) ==>
            var index, infos := OverridesFor(es, route), Infos(tc, es.targets, route);
            if AppsOf(index, infos) != {} then
              exists a, order :: a in AppsOf(index, infos) && multiset(order) == AppDestinations(index[a], infos)
                                 && block[0].route == Destinations(order)
            else
              block[0].route == Destinations(ServiceDestinations(ServiceDial(es.targetGroups.value), infos))
  {
    BlockShape(block, tc, es, route);
    EmptyRulesStart(tc, es.routes, route.name, DurationOf(es, route));
    if Targeted(es) && !Falls(tc, es, route) {
      var d :| DetailsOf(d, tc, es, route) && IsBlock(block, tc, es.routes, d);
      var aliases :| Parts(block, tc, es.routes, d, aliases);
      NoAliasesNoApps(aliases, d);
      if aliases != [] {
        var a := FirstIsApp(block, tc, es.routes, d, aliases);
        assert multiset(d.apps[a]) == AppDestinations(OverridesFor(es, route)[a], Infos(tc, es.targets, route));
      } else {
        FirstIsService(block, tc, es.routes, d);
      }
    }
  }

  lemma FirstIsApp(block: seq<HTTPRoute>, tc: TrafficConfig, routes: seq<Route>, d: RouteDetails, aliases: seq<string>)
    returns (a: string)
    requires Parts(block, tc, routes, d, aliases) && aliases != []
    ensures a in d.apps && block != [] && block[0].route == Destinations(d.apps[a])
  {
    a := aliases[0];
    assert block[0] == AppRule(d, a);
  }

  lemma FirstIsService(block: seq<HTTPRoute>, tc: TrafficConfig, routes: seq<Route>, d: RouteDetails)
    requires Parts(block, tc, routes, d, []) && d.service != []
    ensures block != [] && block[0].route == Destinations(d.service)
  {
    assert block == Otherwise(tc, routes, d);
  }

  // ---------- by position ----------

  function ConfigsOf(route: Route): seq<Config> { if route.config.Some? then route.config.value else [] }

  // Destination for config c: its endpoint, with this weight.
  predicate SendsTo(d: Destination, tc: TrafficConfig, es: EdgeService, route: Route, c: Config, weight: int) {
    EndpointFits(d.host, tc, es.targets, route, c) && Casts(weight, d.weight)
  }

  // Destination j is for config picked[j], with the weight its selector has.
  predicate SendsByWeight(ds: seq<Destination>, tc: TrafficConfig, es: EdgeService, route: Route, weights: Weights, picked: seq<nat>) {
    var cs := ConfigsOf(route);
    && |ds| == |picked|
    && (forall j :: 0 <= j < |ds| ==>
          picked[j] < |cs| && cs[picked[j]].targetGroupSelector in weights
          && SendsTo(ds[j], tc, es, route, cs[picked[j]], weights[cs[picked[j]].targetGroupSelector]))
    && (forall i: nat :: i < |cs| && cs[i].targetGroupSelector in weights ==> i in picked)
  }

  predicate Ascending(picked: seq<nat>) { forall j, k :: 0 <= j < k < |picked| ==> picked[j] < picked[k] }

  // The first route of the name with environments.
  predicate FirstWithEnvs(routes: seq<Route>, name: string, k: nat) {
    && k < |routes| && routes[k].name == name && routes[k].workloadEnvSelectors != []
    && forall j :: 0 <= j < k ==> routes[j].name != name || routes[j].workloadEnvSelectors == []
  }

  lemma {:induction false} FirstEnvIs(routes: seq<Route>, name: string, k: nat)
    requires FirstWithEnvs(routes, name, k)
    ensures FirstEnv(routes, name) == Some(routes[k].workloadEnvSelectors[0])
    decreases |routes|
  {
    var n := |routes| - 1;
    if k < n { FirstEnvIs(routes[..n], name, k); } else { NoFirstEnv(routes[..n], name); }
  }

  lemma {:induction false} NoFirstEnv(routes: seq<Route>, name: string)
    requires forall j :: 0 <= j < |routes| ==> routes[j].name != name || routes[j].workloadEnvSelectors == []
    ensures FirstEnv(routes, name).None?
    decreases |routes|
  {
    if routes != [] { NoFirstEnv(routes[..|routes| - 1], name); }
  }

  lemma NothingDialled(dial: Weights, infos: seq<RouteTargetInfo>)
    ensures Dialled(dial, infos) == [] <==> forall i :: 0 <= i < |infos| ==> infos[i].targetGroupSelector !in dial
  {
    var picked := DialledDials(dial, infos);
    if i: nat :| i < |infos| && infos[i].targetGroupSelector in dial { assert i in picked; }
    if Dialled(dial, infos) != [] { assert infos[picked[0]].targetGroupSelector in dial; }
  }

  // Some config selects a weight of some app's override.
  predicate SomeAppSelected(index: map<string, Weights>, cs: seq<Config>) {
    exists a, i :: 0 <= i < |cs| && a in index && cs[i].targetGroupSelector in index[a]
  }

  lemma NoAppSelected(tc: TrafficConfig, es: EdgeService, route: Route, index: map<string, Weights>)
    ensures AppsOf(index, Infos(tc, es.targets, route)) == {} <==> !SomeAppSelected(index, ConfigsOf(route))
  {
    hide MeshDNS, AppsOf;
    NoApps(index, Infos(tc, es.targets, route));
    assert forall i :: 0 <= i < |ConfigsOf(route)| ==>
      Infos(tc, es.targets, route)[i].targetGroupSelector == ConfigsOf(route)[i].targetGroupSelector;
  }

  lemma NoApps(index: map<string, Weights>, infos: seq<RouteTargetInfo>)
    ensures AppsOf(index, infos) == {} <==> forall a, i :: 0 <= i < |infos| && a in index ==> infos[i].targetGroupSelector !in index[a]
  {
    hide AppsOf;
    forall a: string ensures a in AppsOf(index, infos) <==>
      a in index && exists i :: 0 <= i < |infos| && infos[i].targetGroupSelector in index[a]
    {
      AppsByConfig(index, infos, a);
    }
  }

  // The route falls back exactly when no config selects a weight or an override's
  // weight, and it is not a sole config without a selector.
  lemma FallsByConfig(tc: TrafficConfig, es: EdgeService, route: Route)
    requires Targeted(es)
    ensures var cs := ConfigsOf(route);
            Falls(tc, es, route) <==>
              && !(|cs| == 1 && cs[0].targetGroupSelector == "")
              && (forall i :: 0 <= i < |cs| ==> cs[i].targetGroupSelector !in ServiceDial(es.targetGroups.value))
              && !SomeAppSelected(OverridesFor(es, route), cs)
  {
    hide MeshDNS, Dialled, ServiceDial, OverridesFor, AppsOf, SomeAppSelected;
    var infos, dial, index := Infos(tc, es.targets, route), ServiceDial(es.targetGroups.value), OverridesFor(es, route);
    assert forall i :: 0 <= i < |infos| ==> infos[i].targetGroupSelector == ConfigsOf(route)[i].targetGroupSelector;
    NothingDialled(dial, infos);
    NoAppSelected(tc, es, route, index);
  }

  lemma EachSends(ds: seq<EndpointWeight>, tc: TrafficConfig, es: EdgeService, route: Route, weights: Weights, picked: seq<nat>)
    requires |picked| == |ds|
    requires var infos := Infos(tc, es.targets, route);
             && (forall j :: 0 <= j < |ds| ==>
                   picked[j] < |infos| && infos[picked[j]].targetGroupSelector in weights
                   && ds[j].endpoint == infos[picked[j]].meshEndpoint && ds[j].weight == weights[infos[picked[j]].targetGroupSelector])
             && (forall i: nat :: i < |infos| && infos[i].targetGroupSelector in weights ==> i in picked)
    ensures SendsByWeight(Destinations(ds), tc, es, route, weights, picked)
  {
    var cs := ConfigsOf(route);
    hide EndpointFits, MeshDNS, Casts;
    forall j | 0 <= j < |ds|
      ensures SendsTo(Destinations(ds)[j], tc, es, route, cs[picked[j]], weights[cs[picked[j]].targetGroupSelector])
    {
      InfosFit(tc, es.targets, route, cs, picked[j]);
      Int32Casts(ds[j].weight);
    }
  }

  lemma ServiceSends(tc: TrafficConfig, es: EdgeService, route: Route) returns (picked: seq<nat>)
    requires Targeted(es)
    ensures var dial, cs := ServiceDial(es.targetGroups.value), ConfigsOf(route);
            var ds := Destinations(ServiceDestinations(dial, Infos(tc, es.targets, route)));
            if |cs| == 1 && cs[0].targetGroupSelector == "" then |ds| == 1 && SendsTo(ds[0], tc, es, route, cs[0], 100)
            else SendsByWeight(ds, tc, es, route, dial, picked) && Ascending(picked)
  {
    var dial, infos, cs := ServiceDial(es.targetGroups.value), Infos(tc, es.targets, route), ConfigsOf(route);
    picked := DialledDials(dial, infos);
    if |cs| == 1 && cs[0].targetGroupSelector == "" {
      InfosFit(tc, es.targets, route, cs, 0);
      Int32Casts(100);
    } else {
      EachSends(Dialled(dial, infos), tc, es, route, dial, picked);
    }
  }

  lemma AppSends(order: seq<EndpointWeight>, tc: TrafficConfig, es: EdgeService, route: Route, weights: Weights)
    returns (picked: seq<nat>)
    requires multiset(order) == AppDestinations(weights, Infos(tc, es.targets, route))
    ensures SendsByWeight(Destinations(order), tc, es, route, weights, picked) && NoRepeats(picked)
  {
    picked := SelectedDraws(order, weights, weights.Keys, Infos(tc, es.targets, route));
    assert forall j :: 0 <= j < |order| ==> DrawnFrom(order[j], weights, weights.Keys, Infos(tc, es.targets, route), picked[j]);
    EachSends(order, tc, es, route, weights, picked);
  }

  ghost predicate ByService(ds: seq<Destination>, tc: TrafficConfig, es: EdgeService, route: Route)
    requires Targeted(es)
  {
    var cs := ConfigsOf(route);
    if |cs| == 1 && cs[0].targetGroupSelector == "" then |ds| == 1 && SendsTo(ds[0], tc, es, route, cs[0], 100)
    else exists picked: seq<nat> ::
           SendsByWeight(ds, tc, es, route, ServiceDial(es.targetGroups.value), picked) && Ascending(picked)
  }

  ghost predicate ByApp(ds: seq<Destination>, tc: TrafficConfig, es: EdgeService, route: Route, weights: Weights) {
    exists picked: seq<nat> :: SendsByWeight(ds, tc, es, route, weights, picked) && NoRepeats(picked)
  }

  ghost predicate BySomeApp(ds: seq<Destination>, tc: TrafficConfig, es: EdgeService, route: Route)
    requires Targeted(es)
  {
    ds != [] && exists a <- OverridesFor(es, route) :: ByApp(ds, tc, es, route, OverridesFor(es, route)[a])
  }

  // The winner's destinations, by position: one for each config that one of the apps
  // with overrides selects; without such an app one for each config that selects a
  // service weight, in order, or all to a sole config without a selector; for a route
  // that falls back the host of the first environment of the first route of its name.
  lemma WinnerByPosition(block: seq<HTTPRoute>, tc: TrafficConfig, es: EdgeService, route: Route)
    requires BlockFor(block, tc, es, route) && block != []
    ensures Falls(tc, es, route) ==> forall k: nat :: FirstWithEnvs(es.routes, route.name, k) ==>
              block[0].route
              == [Destination(ToLower(es.routes[k].workloadEnvSelectors[0] + "." + tc.identity + "." + tc.suffix), 0)]
    ensures !Falls(tc, es, route) ==> Targeted(es)
    ensures Targeted(es) && !Falls(tc, es, route) ==>
            if SomeAppSelected(OverridesFor(es, route), ConfigsOf(route))
            then BySomeApp(block[0].route, tc, es, route)
            else ByService(block[0].route, tc, es, route)
  {
    WinnerSendsTo(block, tc, es, route);
    if Falls(tc, es, route) {
      forall k: nat | FirstWithEnvs(es.routes, route.name, k)
        ensures FirstEnv(es.routes, route.name) == Some(es.routes[k].workloadEnvSelectors[0])
      {
        FirstEnvIs(es.routes, route.name, k);
      }
      HostOfEnv(tc, FirstEnv(es.routes, route.name).value);
    } else {
      WinnerByConfigs(block, tc, es, route);
    }
  }

  lemma WinnerByConfigs(block: seq<HTTPRoute>, tc: TrafficConfig, es: EdgeService, route: Route)
    requires BlockFor(block, tc, es, route) && block != [] && Targeted(es) && !Falls(tc, es, route)
    ensures if SomeAppSelected(OverridesFor(es, route), ConfigsOf(route))
            then BySomeApp(block[0].route, tc, es, route)
            else ByService(block[0].route, tc, es, route)
  {
    WinnerSendsTo(block, tc, es, route);
    hide BlockFor, OverridesFor, SendsByWeight, MeshDNS, Falls, ServiceDial, ServiceDestinations, AppsOf, AppDestinations;
    hide SomeAppSelected, Infos, ByApp, SendsTo;
    var index, infos := OverridesFor(es, route), Infos(tc, es.targets, route);
    NoAppSelected(tc, es, route, index);
    if AppsOf(index, infos) != {} {
      var a, order :| a in AppsOf(index, infos) && multiset(order) == AppDestinations(index[a], infos)
                      && block[0].route == Destinations(order);
      AppWins(a, order, tc, es, route);
    } else {
      var picked := ServiceSends(tc, es, route);
    }
  }

  lemma AppWins(a: string, order: seq<EndpointWeight>, tc: TrafficConfig, es: EdgeService, route: Route)
    requires Targeted(es) && a in AppsOf(OverridesFor(es, route), Infos(tc, es.targets, route))
    requires multiset(order) == AppDestinations(OverridesFor(es, route)[a], Infos(tc, es.targets, route))
    ensures a in OverridesFor(es, route) && Destinations(order) != [] && ByApp(Destinations(order), tc, es, route, OverridesFor(es, route)[a])
  {
    hide OverridesFor, SendsByWeight, MeshDNS, AppDestinations;
    var picked := AppSends(order, tc, es, route, OverridesFor(es, route)[a]);
    assert |order| == |multiset(order)|;
  }
}
