// The ordered rule list: a block of rules for each route, then the defaults.
module RoutingRules {
  import opened Wrappers
  import opened Text
  import opened Iteration
  import opened VirtualService
  import opened RouteDetailing

  // ---------- rules of one route ----------

  // int32(weight)
  function Int32(w: int): int {
    var m := w % 0x1_0000_0000;
    if m < 0x8000_0000 then m else m - 0x1_0000_0000
  }

  // v is w cut down to 32 bits, signed.
  predicate Casts(w: int, v: int) { -0x8000_0000 <= v < 0x8000_0000 && (w - v) % 0x1_0000_0000 == 0 }

  lemma Int32Casts(w: int)
    ensures Casts(w, Int32(w))
  {
    var m := w % 0x1_0000_0000;
    assert w - m == 0x1_0000_0000 * (w / 0x1_0000_0000);
    assert w - (m - 0x1_0000_0000) == 0x1_0000_0000 * (w / 0x1_0000_0000 + 1);
  }

  function Destinations(es: seq<EndpointWeight>): (r: seq<Destination>)
    ensures |r| == |es|
  {
    seq(|es|, i requires 0 <= i < |es| => Destination(es[i].endpoint, Int32(es[i].weight)))
  }

  function RuleTo(name: string, d: RouteDetails, route: seq<Destination>): HTTPRoute {
    HTTPRoute(name, d.inbound, None, route, Some(d.outbound), GetFinalRouteTimeout(d.timeout))
  }

  predicate TimeoutFits(timeout: Option<Duration>, d: Duration) {
    timeout == if Nanoseconds(d) > 1_000_000 then Some(d) else None
  }

  // Field by field: a rule of the route, to these destinations in order.
  predicate RuleFits(r: HTTPRoute, name: string, d: RouteDetails, es: seq<EndpointWeight>) {
    && r.name == name && r.prefix == d.inbound && r.authority.None? && r.rewrite == Some(d.outbound)
    && TimeoutFits(r.timeout, d.timeout) && |r.route| == |es|
    && forall j :: 0 <= j < |es| ==> r.route[j].host == es[j].endpoint && Casts(es[j].weight, r.route[j].weight)
  }

  lemma RuleToFits(name: string, d: RouteDetails, es: seq<EndpointWeight>)
    ensures RuleFits(RuleTo(name, d, Destinations(es)), name, d, es)
  {
    forall j | 0 <= j < |es| ensures Casts(es[j].weight, Destinations(es)[j].weight) { Int32Casts(es[j].weight); }
  }

  function AppRule(d: RouteDetails, assetAlias: string): HTTPRoute
    requires assetAlias in d.apps
  {
    RuleTo(d.routeName + "-" + assetAlias, d, Destinations(d.apps[assetAlias]))
  }

  function AppRules(d: RouteDetails, aliases: seq<string>): (r: seq<HTTPRoute>)
    requires forall a <- aliases :: a in d.apps
    ensures |r| == |aliases|
  {
    seq(|aliases|, i requires 0 <= i < |aliases| => AppRule(d, aliases[i]))
  }

  function ServiceRule(d: RouteDetails): HTTPRoute { RuleTo(d.routeName, d, Destinations(d.service)) }

  function EnvRule(tc: TrafficConfig, name: string, timeout: Duration, route: Route, env: string): HTTPRoute {
    HTTPRoute(name + "-" + env, route.inbound, None, [Destination(HostOf(tc, env), 0)], Some(route.outbound),
              GetFinalRouteTimeout(timeout))
  }

  function EnvRules(tc: TrafficConfig, name: string, timeout: Duration, route: Route, envs: seq<string>): (r: seq<HTTPRoute>)
    ensures |r| == |envs|
  {
    seq(|envs|, i requires 0 <= i < |envs| => EnvRule(tc, name, timeout, route, envs[i]))
  }

  // One rule for each environment of each route of that name.
  function EmptyRules(tc: TrafficConfig, routes: seq<Route>, name: string, timeout: Duration): seq<HTTPRoute> {
    if routes == [] then []
    else
      var last := routes[|routes| - 1];
      EmptyRules(tc, routes[..|routes| - 1], name, timeout)
      + if last.name == name then EnvRules(tc, name, timeout, last, last.workloadEnvSelectors) else []
  }

  method ToDestinations(es: seq<EndpointWeight>) returns (r: seq<Destination>)
    ensures r == Destinations(es)
  {
    r := [];
    for i := 0 to |es|
      invariant r == Destinations(es)[..i]
    {
      r := r + [Destination(es[i].endpoint, Int32(es[i].weight))];
    }
  }

  predicate InOrder(aliases: seq<string>, d: RouteDetails) { NoRepeats(aliases) && Elements(aliases) == d.apps.Keys }

  predicate AppRulesIn(rules: seq<HTTPRoute>, d: RouteDetails, aliases: seq<string>) {
    InOrder(aliases, d) && (forall a <- aliases :: a in d.apps) && rules == AppRules(d, aliases)
  }

  // One rule for each app, in the order the apps happen to come.
  ghost predicate AppRulesFit(rules: seq<HTTPRoute>, d: RouteDetails, order: seq<string>) {
    && AppRulesIn(rules, d, order)
    && forall i :: 0 <= i < |rules| ==> RuleFits(rules[i], d.routeName + "-" + order[i], d, d.apps[order[i]])
  }

  method BuildAppDialRules(d: RouteDetails) returns (rules: seq<HTTPRoute>)
    ensures exists order: seq<string> :: AppRulesFit(rules, d, order)
  {
    rules := [];
    var order := InSomeOrder(d.apps.Keys);
    forall a <- order ensures a in d.apps { assert a in Elements(order); }
    for i := 0 to |order|
      invariant rules == AppRules(d, order)[..i]
      invariant forall k :: 0 <= k < i ==> RuleFits(rules[k], d.routeName + "-" + order[k], d, d.apps[order[k]])
    {
      var route := ToDestinations(d.apps[order[i]]);
      RuleToFits(d.routeName + "-" + order[i], d, d.apps[order[i]]);
      rules := rules + [RuleTo(d.routeName + "-" + order[i], d, route)];
    }
    assert AppRulesFit(rules, d, order);
  }

  method BuildServiceDialRule(d: RouteDetails) returns (rule: HTTPRoute)
    ensures rule == ServiceRule(d) && RuleFits(rule, d.routeName, d, d.service)
  {
    var route := ToDestinations(d.service);
    RuleToFits(d.routeName, d, d.service);
    rule := RuleTo(d.routeName, d, route);
  }

  // Field by field: the rule of one environment of a route.
  predicate EnvRuleFits(r: HTTPRoute, tc: TrafficConfig, name: string, timeout: Duration, route: Route, env: string) {
    && r.name == name + "-" + env && r.prefix == route.inbound && r.authority.None? && r.rewrite == Some(route.outbound)
    && TimeoutFits(r.timeout, timeout)
    && |r.route| == 1 && r.route[0].host == ToLower(env + "." + tc.identity + "." + tc.suffix) && r.route[0].weight == 0
  }

  // An environment of a route of the name.
  predicate EnvPosition(routes: seq<Route>, name: string, p: (nat, nat)) {
    p.0 < |routes| && routes[p.0].name == name && p.1 < |routes[p.0].workloadEnvSelectors|
  }

  // The rule of that environment of that route.
  predicate EnvRuleAt(r: HTTPRoute, tc: TrafficConfig, routes: seq<Route>, name: string, timeout: Duration, p: (nat, nat)) {
    EnvPosition(routes, name, p) && EnvRuleFits(r, tc, name, timeout, routes[p.0], routes[p.0].workloadEnvSelectors[p.1])
  }

  // By position: rule j is that of environment from[j].1 of route from[j].0, of that
  // name; routes in order, then their environments, and none is left out.
  ghost predicate EnvRulesFit(rules: seq<HTTPRoute>, tc: TrafficConfig, routes: seq<Route>, name: string, timeout: Duration,
                        from: seq<(nat, nat)>)
  {
    && |from| == |rules| && RowByRow(from)
    && (forall j :: 0 <= j < |from| ==> EnvRuleAt(rules[j], tc, routes, name, timeout, from[j]))
    && (forall a: nat, b: nat :: EnvPosition(routes, name, (a, b)) ==> (a, b) in from)
  }

  lemma {:induction false} EmptyRulesFit(tc: TrafficConfig, routes: seq<Route>, name: string, timeout: Duration)
    returns (from: seq<(nat, nat)>)
    ensures EnvRulesFit(EmptyRules(tc, routes, name, timeout), tc, routes, name, timeout, from)
    decreases |routes|
  {
    from := [];
    if routes != [] {
      var n := |routes| - 1;
      var before := EmptyRulesFit(tc, routes[..n], name, timeout);
      hide EnvRulesFit;
      if routes[n].name == name {
        RowFits(EmptyRules(tc, routes[..n], name, timeout), tc, routes, name, timeout, before);
        from := before + Row(n, |routes[n].workloadEnvSelectors|);
      } else {
        OtherName(EmptyRules(tc, routes[..n], name, timeout), tc, routes, name, timeout, before);
        from := before;
      }
    }
  }

  lemma EnvRuleIs(tc: TrafficConfig, name: string, timeout: Duration, route: Route, env: string)
    ensures EnvRuleFits(EnvRule(tc, name, timeout, route, env), tc, name, timeout, route, env)
  {
    HostOfEnv(tc, env);
  }

  lemma RowFits(before: seq<HTTPRoute>, tc: TrafficConfig, routes: seq<Route>, name: string, timeout: Duration, from: seq<(nat, nat)>)
    requires routes != [] && EnvRulesFit(before, tc, routes[..|routes| - 1], name, timeout, from)
    requires routes[|routes| - 1].name == name
    ensures var last := routes[|routes| - 1];
            EnvRulesFit(before + EnvRules(tc, name, timeout, last, last.workloadEnvSelectors), tc, routes, name, timeout,
                        from + Row(|routes| - 1, |last.workloadEnvSelectors|))
  {
    var n, last := |routes| - 1, routes[|routes| - 1];
    var row, more := Row(n, |last.workloadEnvSelectors|), EnvRules(tc, name, timeout, last, last.workloadEnvSelectors);
    forall p <- from ensures p.0 < n { var j :| 0 <= j < |from| && from[j] == p; }
    OneRowMore(from, n, |row|);
    hide EnvRuleFits, EnvRule, RowByRow;
    forall j | 0 <= j < |from + row| ensures EnvRuleAt((before + more)[j], tc, routes, name, timeout, (from + row)[j]) {
      if j < |from| {
        assert EnvRuleAt(before[j], tc, routes[..n], name, timeout, from[j]);
      } else {
        EnvRuleIs(tc, name, timeout, last, last.workloadEnvSelectors[j - |from|]);
      }
    }
    forall a: nat, b: nat | EnvPosition(routes, name, (a, b)) ensures (a, b) in from + row {
      if a < n { assert EnvPosition(routes[..n], name, (a, b)); } else { assert row[b] == (a, b); }
    }
  }

  lemma OtherName(before: seq<HTTPRoute>, tc: TrafficConfig, routes: seq<Route>, name: string, timeout: Duration,
                  from: seq<(nat, nat)>)
    requires routes != [] && EnvRulesFit(before, tc, routes[..|routes| - 1], name, timeout, from)
    requires routes[|routes| - 1].name != name
    ensures EnvRulesFit(before + [], tc, routes, name, timeout, from)
  {
    hide EnvRuleFits, RowByRow;
    assert before + [] == before;
    forall j | 0 <= j < |from| ensures EnvRuleAt(before[j], tc, routes, name, timeout, from[j]) {
      assert EnvRuleAt(before[j], tc, routes[..|routes| - 1], name, timeout, from[j]);
    }
    forall a: nat, b: nat | EnvPosition(routes, name, (a, b)) ensures (a, b) in from {
      assert EnvPosition(routes[..|routes| - 1], name, (a, b));
    }
  }

  method BuildRuleWhenRouteConfigEmpty(tc: TrafficConfig, routes: seq<Route>, name: string, timeout: Duration)
    returns (rules: seq<HTTPRoute>, ghost from: seq<(nat, nat)>)
    ensures rules == EmptyRules(tc, routes, name, timeout)
    ensures EnvRulesFit(rules, tc, routes, name, timeout, from)
  {
    from := EmptyRulesFit(tc, routes, name, timeout);
    hide EnvRulesFit;
    rules := [];
    for i := 0 to |routes|
      invariant rules == EmptyRules(tc, routes[..i], name, timeout)
    {
      assert routes[..i + 1][..i] == routes[..i];
      if routes[i].name == name {
        var envs := routes[i].workloadEnvSelectors;
        for j := 0 to |envs|
          invariant rules == EmptyRules(tc, routes[..i], name, timeout) + EnvRules(tc, name, timeout, routes[i], envs)[..j]
        {
          rules := rules + [EnvRule(tc, name, timeout, routes[i], envs[j])];
        }
      }
    }
    assert routes[..|routes|] == routes;
  }

  function Otherwise(tc: TrafficConfig, routes: seq<Route>, d: RouteDetails): seq<HTTPRoute> {
    if d.service != [] then [ServiceRule(d)]
    else if d.apps.Keys != {} then []
    else EmptyRules(tc, routes, d.routeName, d.timeout)
  }

  // App rules in any order, then the service rule; without either, a rule for
  // each environment.
  predicate Parts(block: seq<HTTPRoute>, tc: TrafficConfig, routes: seq<Route>, d: RouteDetails, aliases: seq<string>) {
    InOrder(aliases, d) && (forall a <- aliases :: a in d.apps)
    && block == AppRules(d, aliases) + Otherwise(tc, routes, d)
  }

  ghost predicate IsBlock(block: seq<HTTPRoute>, tc: TrafficConfig, routes: seq<Route>, d: RouteDetails) {
    exists aliases: seq<string> :: Parts(block, tc, routes, d, aliases)
  }

  lemma NoAppsInOrder(d: RouteDetails)
    ensures |d.apps| == 0 ==> AppRulesIn([], d, [])
    ensures |d.apps| == 0 <==> d.apps.Keys == {}
  {
    assert |d.apps| == |d.apps.Keys|;
    var none: seq<string> := [];
    assert Elements(none) == {};
  }

  lemma PartsTogether(d: RouteDetails, tc: TrafficConfig, routes: seq<Route>, apps: seq<HTTPRoute>, rest: seq<HTTPRoute>,
                      order: seq<string>)
    requires AppRulesIn(apps, d, order) && rest == Otherwise(tc, routes, d)
    ensures IsBlock(apps + rest, tc, routes, d)
  {
    hide InOrder, Otherwise, AppRules;
    assert Parts(apps + rest, tc, routes, d, order);
  }

  method BuildBlock(tc: TrafficConfig, routes: seq<Route>, d: RouteDetails) returns (block: seq<HTTPRoute>)
    ensures IsBlock(block, tc, routes, d)
  {
    hide RuleFits, EnvRulesFit, EmptyRules, AppRulesIn, IsBlock;
    NoAppsInOrder(d);
    block := [];
    ghost var order: seq<string> := [];
    if |d.apps| != 0 {
      var apps := BuildAppDialRules(d);
      ghost var aliases: seq<string> :| AppRulesFit(apps, d, aliases);
      assert block + apps == apps;
      block, order := block + apps, aliases;
    }
    ghost var before := block;
    if |d.service| != 0 {
      var service := BuildServiceDialRule(d);
      block := block + [service];
    }
    if |d.service| == 0 && |d.apps| == 0 {
      var empty, _ := BuildRuleWhenRouteConfigEmpty(tc, routes, d.routeName, d.timeout);
      block := block + empty;
    }
    assert block == before + Otherwise(tc, routes, d);
    PartsTogether(d, tc, routes, before, Otherwise(tc, routes, d), order);
  }

  // ---------- the default rules ----------

  function Seconds(timeout: Option<Duration>): int { if timeout.Some? then timeout.value.seconds else 0 }

  function LongestTimeout(rules: seq<HTTPRoute>): Option<Duration> {
    if rules == [] then None
    else
      var before, last := LongestTimeout(rules[..|rules| - 1]), rules[|rules| - 1].timeout;
      if Seconds(last) > Seconds(before) then last else before
  }

  lemma {:induction false} LongestTimeoutIsLongest(rules: seq<HTTPRoute>)
    ensures forall r <- rules :: Seconds(r.timeout) <= Seconds(LongestTimeout(rules))
    ensures LongestTimeout(rules).Some? ==> exists r <- rules :: r.timeout == LongestTimeout(rules)
    ensures LongestTimeout(rules).None? <==> forall r <- rules :: Seconds(r.timeout) <= 0
    decreases |rules|
  {
    if rules != [] {
      var init := rules[..|rules| - 1];
      LongestTimeoutIsLongest(init);
      LongestIsPositive(init);
      assert rules == init + [rules[|rules| - 1]];
      assert rules[|rules| - 1] in rules;
      forall r | r in init ensures r in rules {}
    }
  }

  lemma {:induction false} LongestIsPositive(rules: seq<HTTPRoute>)
    ensures LongestTimeout(rules).Some? ==> Seconds(LongestTimeout(rules)) > 0
    decreases |rules|
  {
    if rules != [] { LongestIsPositive(rules[..|rules| - 1]); }
  }

  function DefaultRule(tc: TrafficConfig, env: string, timeout: Option<Duration>): HTTPRoute {
    HTTPRoute("defaultall" + "-" + env, "/", Some(ToLower(HostOf(tc, env))), [Destination(HostOf(tc, env), 0)], None,
              if timeout.Some? then GetFinalRouteTimeout(timeout.value) else None)
  }

  function Defaults(tc: TrafficConfig, timeout: Option<Duration>): (r: seq<HTTPRoute>)
    ensures |r| == |tc.workloadEnv|
  {
    seq(|tc.workloadEnv|, i requires 0 <= i < |tc.workloadEnv| => DefaultRule(tc, tc.workloadEnv[i], timeout))
  }

  // Field by field: the default rule of one environment.
  predicate DefaultFits(r: HTTPRoute, tc: TrafficConfig, env: string, longest: Option<Duration>) {
    var host := ToLower(env + "." + tc.identity + "." + tc.suffix);
    && r.name == "defaultall-" + env && r.prefix == "/" && r.authority == Some(host) && r.rewrite.None?
    && (if longest.Some? then TimeoutFits(r.timeout, longest.value) else r.timeout.None?)
    && |r.route| == 1 && r.route[0].host == host && r.route[0].weight == 0
  }

  lemma DefaultRuleFits(tc: TrafficConfig, env: string, longest: Option<Duration>)
    ensures DefaultFits(DefaultRule(tc, env, longest), tc, env, longest)
  {
    HostOfEnv(tc, env);
    ToLowerIsLower(env + "." + tc.identity + "." + tc.suffix);
    LowerFixed(HostOf(tc, env));
    assert "defaultall" + "-" + env == "defaultall-" + env;
  }

  method AddAllowAllRule(tc: TrafficConfig, rules: seq<HTTPRoute>) returns (extended: seq<HTTPRoute>)
    ensures extended == rules + Defaults(tc, LongestTimeout(rules))
    ensures |extended| == |rules| + |tc.workloadEnv| && rules <= extended
    ensures forall i :: 0 <= i < |tc.workloadEnv| ==> DefaultFits(extended[|rules| + i], tc, tc.workloadEnv[i], LongestTimeout(rules))
  {
    var timeout: Option<Duration> := None;
    for i := 0 to |rules|
      invariant timeout == LongestTimeout(rules[..i])
    {
      assert rules[..i + 1][..i] == rules[..i];
      if Seconds(rules[i].timeout) > Seconds(timeout) { timeout := rules[i].timeout; }
    }
    assert rules[..|rules|] == rules;
    extended := rules;
    for i := 0 to |tc.workloadEnv|
      invariant extended == rules + Defaults(tc, timeout)[..i]
    {
      extended := extended + [DefaultRule(tc, tc.workloadEnv[i], timeout)];
    }
    forall i | 0 <= i < |tc.workloadEnv| ensures DefaultFits(extended[|rules| + i], tc, tc.workloadEnv[i], LongestTimeout(rules)) {
      DefaultRuleFits(tc, tc.workloadEnv[i], LongestTimeout(rules));
    }
  }

  // ---------- the whole list ----------

  predicate Targeted(es: EdgeService) { es.targets.Some? && es.targetGroups.Some? }

  // The overrides that count for a route, and the weights that do.
  function OverridesFor(es: EdgeService, route: Route): map<string, Weights>
    requires Targeted(es)
  {
    OrEmpty(DirectOverrides(es.targetGroups.value, es.routes, es.targetGroups.value, route.name))
  }

  ghost predicate DetailsOf(d: RouteDetails, tc: TrafficConfig, es: EdgeService, route: Route)
    requires Targeted(es)
  {
    Detailed(d, tc, es.targets, route, OverridesFor(es, route), ServiceDial(es.targetGroups.value))
  }

  ghost predicate BlockFor(block: seq<HTTPRoute>, tc: TrafficConfig, es: EdgeService, route: Route) {
    if Targeted(es) then
      exists d :: DetailsOf(d, tc, es, route) && IsBlock(block, tc, es.routes, d)
    else
      block == if route.config.None? then EmptyRules(tc, es.routes, route.name, NewDuration(route.timeout)) else []
  }

  function Flatten(blocks: seq<seq<HTTPRoute>>): seq<HTTPRoute> {
    if blocks == [] then [] else Flatten(blocks[..|blocks| - 1]) + blocks[|blocks| - 1]
  }

  ghost predicate BlocksFor(blocks: seq<seq<HTTPRoute>>, tc: TrafficConfig, es: EdgeService) {
    |blocks| <= |es.routes| && forall k :: 0 <= k < |blocks| ==> BlockFor(blocks[k], tc, es, es.routes[k])
  }

  // The blocks in order, then the defaults.
  predicate Assembled(rules: seq<HTTPRoute>, tc: TrafficConfig, blocks: seq<seq<HTTPRoute>>) {
    rules == Flatten(blocks) + Defaults(tc, LongestTimeout(Flatten(blocks)))
  }

  ghost predicate Compiled(rules: seq<HTTPRoute>, tc: TrafficConfig, es: EdgeService, blocks: seq<seq<HTTPRoute>>) {
    |blocks| == |es.routes| && BlocksFor(blocks, tc, es) && Assembled(rules, tc, blocks)
  }

  lemma FlattenSnoc(blocks: seq<seq<HTTPRoute>>, block: seq<HTTPRoute>)
    ensures Flatten(blocks + [block]) == Flatten(blocks) + block
  {
    assert (blocks + [block])[..|blocks + [block]| - 1] == blocks;
  }

  method BuildMatchRules(tc: TrafficConfig, routes: seq<Route>, details: seq<RouteDetails>)
    returns (rules: seq<HTTPRoute>, ghost blocks: seq<seq<HTTPRoute>>)
    ensures |blocks| == |details| && rules == Flatten(blocks)
    ensures forall k :: 0 <= k < |details| ==> IsBlock(blocks[k], tc, routes, details[k])
  {
    rules, blocks := [], [];
    for i := 0 to |details|
      invariant |blocks| == i && rules == Flatten(blocks)
      invariant forall k :: 0 <= k < i ==> IsBlock(blocks[k], tc, routes, details[k])
    {
      var block := BuildBlock(tc, routes, details[i]);
      FlattenSnoc(blocks, block);
      rules := rules + block;
      blocks := blocks + [block];
    }
  }

  method BuildWithTargets(tc: TrafficConfig, es: EdgeService)
    returns (rules: seq<HTTPRoute>, ghost blocks: seq<seq<HTTPRoute>>)
    requires Targeted(es)
    ensures Compiled(rules, tc, es, blocks)
  {
    var tgs := es.targetGroups.value;
    var tgRoutes := GetTargetGroupRouteNameMap(es.routes, tgs);
    var appDialing, serviceDial := BuildTargetGroupRouteNameMap(tgs, tgRoutes);
    var details := GetCombinedRouteDetails(tc, es.targets, es.routes, appDialing, serviceDial);
    rules, blocks := BuildMatchRules(tc, es.routes, details);
    forall k | 0 <= k < |blocks| ensures BlockFor(blocks[k], tc, es, es.routes[k]) {
      IndexRefines(tgs, es.routes, tgs, tgRoutes, es.routes[k].name);
      assert DetailsOf(details[k], tc, es, es.routes[k]);
    }
    rules := AddAllowAllRule(tc, rules);
  }

  method BuildBlockWithoutTargets(tc: TrafficConfig, es: EdgeService, route: Route) returns (block: seq<HTTPRoute>)
    requires !Targeted(es)
    ensures BlockFor(block, tc, es, route)
  {
    block := [];
    if route.config.None? {
      var empty, _ := BuildRuleWhenRouteConfigEmpty(tc, es.routes, route.name, NewDuration(route.timeout));
      block := block + empty;
    }
  }

  lemma BlocksForMore(blocks: seq<seq<HTTPRoute>>, block: seq<HTTPRoute>, tc: TrafficConfig, es: EdgeService)
    requires BlocksFor(blocks, tc, es) && |blocks| < |es.routes| && BlockFor(block, tc, es, es.routes[|blocks|])
    ensures BlocksFor(blocks + [block], tc, es)
  {
    forall k | 0 <= k < |blocks| + 1 ensures BlockFor((blocks + [block])[k], tc, es, es.routes[k]) {
      if k < |blocks| { assert BlockFor(blocks[k], tc, es, es.routes[k]); }
    }
  }

  method BuildRulesWithoutTargets(tc: TrafficConfig, es: EdgeService)
    returns (rules: seq<HTTPRoute>, ghost blocks: seq<seq<HTTPRoute>>)
    requires !Targeted(es)
    ensures |blocks| == |es.routes| && BlocksFor(blocks, tc, es) && rules == Flatten(blocks)
  {
    rules, blocks := [], [];
    for i := 0 to |es.routes|
      invariant |blocks| == i && BlocksFor(blocks, tc, es) && rules == Flatten(blocks)
    {
      var block := BuildBlockWithoutTargets(tc, es, es.routes[i]);
      BlocksForMore(blocks, block, tc, es);
      FlattenSnoc(blocks, block);
      rules := rules + block;
      blocks := blocks + [block];
    }
  }

  method BuildWithoutTargets(tc: TrafficConfig, es: EdgeService)
    returns (rules: seq<HTTPRoute>, ghost blocks: seq<seq<HTTPRoute>>)
    requires !Targeted(es)
    ensures Compiled(rules, tc, es, blocks)
  {
    rules, blocks := BuildRulesWithoutTargets(tc, es);
    rules := AddAllowAllRule(tc, rules);
  }

  // ---------- hosts ----------

  method ConstructHosts(tc: TrafficConfig) returns (hosts: seq<string>)
    ensures NoRepeats(hosts) && Elements(hosts) == set env <- tc.workloadEnv :: HostOf(tc, env)
  {
    hosts := [];
    var envs := tc.workloadEnv;
    for i := 0 to |envs|
      invariant NoRepeats(hosts) && Elements(hosts) == set env <- envs[..i] :: HostOf(tc, env)
    {
      assert envs[..i + 1] == envs[..i] + [envs[i]];
      var host := HostOf(tc, envs[i]);
      ghost var before := hosts;
      assert host in hosts <==> host in Elements(hosts);
      if host !in hosts {
        ToLowerIsLower(envs[i] + "." + ToLower(tc.identity) + "." + tc.suffix);
        LowerFixed(host);
        hosts := hosts + [ToLower(host)];
        assert Elements(hosts) == Elements(before) + {host};
      }
      assert (set env <- envs[..i + 1] :: HostOf(tc, env)) == (set env <- envs[..i] :: HostOf(tc, env)) + {host};
    }
    assert envs[..|envs|] == envs;
  }

  datatype Built =
    | Nothing                 // no edge service: an empty virtual service
    | NoRoutes                // an error
    | Http(hosts: seq<string>, rules: seq<HTTPRoute>)

  method BuildVirtualServiceForMeshDependents(tc: TrafficConfig)
    returns (vs: Built, ghost blocks: seq<seq<HTTPRoute>>)
    ensures vs.Nothing? <==> tc.edgeService.None?
    ensures vs.NoRoutes? <==> tc.edgeService.Some? && tc.edgeService.value.routes == []
    ensures vs.Http? ==>
      NoRepeats(vs.hosts) && Elements(vs.hosts) == (set env <- tc.workloadEnv :: HostOf(tc, env))
      && Compiled(vs.rules, tc, tc.edgeService.value, blocks)
  {
    blocks := [];
    if tc.edgeService.None? { return Nothing, []; }
    var es := tc.edgeService.value;
    if |es.routes| == 0 { return NoRoutes, []; }
    var rules;
    if es.targets.None? || es.targetGroups.None? {
      rules, blocks := BuildWithoutTargets(tc, es);
    } else {
      rules, blocks := BuildWithTargets(tc, es);
    }
    var hosts := ConstructHosts(tc);
    vs := Http(hosts, rules);
  }
}
