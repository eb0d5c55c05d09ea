// What the compiled rules mean: a request goes where the first matching rule
// sends it, and that is where the configuration wants it.
module Routing {
  import opened Wrappers
  import opened Text
  import opened Iteration
  import opened VirtualService
  import opened RouteDetailing
  import opened RoutingRules

  datatype Request = Request(path: string, authority: string)

  predicate Matches(r: HTTPRoute, q: Request) {
    r.prefix <= q.path && (r.authority.Some? ==> r.authority.value <= q.authority)
  }

  // The index of the rule that serves the request.
  function FirstMatch(rules: seq<HTTPRoute>, q: Request): Option<nat> {
    if rules == [] then None
    else if FirstMatch(rules[..|rules| - 1], q).Some? then FirstMatch(rules[..|rules| - 1], q)
    else if Matches(rules[|rules| - 1], q) then Some(|rules| - 1)
    else None
  }

  // Nothing before it matches.
  lemma {:induction false} FirstMatchIsFirst(rules: seq<HTTPRoute>, q: Request)
    ensures FirstMatch(rules, q).None? ==> forall i :: 0 <= i < |rules| ==> !Matches(rules[i], q)
    ensures FirstMatch(rules, q).Some? ==>
      FirstMatch(rules, q).value < |rules| && Matches(rules[FirstMatch(rules, q).value], q)
      && forall i :: 0 <= i < FirstMatch(rules, q).value ==> !Matches(rules[i], q)
    decreases |rules|
  {
    if rules != [] { FirstMatchIsFirst(rules[..|rules| - 1], q); }
  }

  function Shifted(i: Option<nat>, offset: nat): Option<nat> { if i.Some? then Some(i.value + offset) else None }

  lemma {:induction false} FirstMatchConcat(a: seq<HTTPRoute>, b: seq<HTTPRoute>, q: Request)
    ensures FirstMatch(a + b, q)
         == if FirstMatch(a, q).Some? then FirstMatch(a, q) else Shifted(FirstMatch(b, q), |a|)
    decreases |b|
  {
    if b == [] {
      assert a + b == a;
    } else {
      FirstMatchConcat(a, b[..|b| - 1], q);
      assert (a + b)[..|a + b| - 1] == a + b[..|b| - 1];
    }
  }

  // ---------- blocks ----------

  // The first block with a matching rule, and that rule's index within it.
  function FirstBlock(blocks: seq<seq<HTTPRoute>>, q: Request): Option<(nat, nat)> {
    if blocks == [] then None
    else
      var k := |blocks| - 1;
      match FirstBlock(blocks[..k], q)
      case Some(p) => Some(p)
      case None =>
        match FirstMatch(blocks[k], q)
        case Some(i) => Some((k, i))
        case None => None
  }

  function Place(blocks: seq<seq<HTTPRoute>>, p: (nat, nat)): nat
    requires p.0 <= |blocks|
  {
    |Flatten(blocks[..p.0])| + p.1
  }

  lemma {:induction false} FirstBlockInRange(blocks: seq<seq<HTTPRoute>>, q: Request)
    ensures FirstBlock(blocks, q).Some? ==>
      FirstBlock(blocks, q).value.0 < |blocks|
      && FirstBlock(blocks, q).value.1 < |blocks[FirstBlock(blocks, q).value.0]|
    decreases |blocks|
  {
    if blocks != [] {
      var n := |blocks| - 1;
      FirstBlockInRange(blocks[..n], q);
      FirstMatchIsFirst(blocks[n], q);
      if FirstBlock(blocks[..n], q).Some? {
        var k := FirstBlock(blocks[..n], q).value.0;
        assert blocks[..n][k] == blocks[k];
      }
    }
  }

  // Order between blocks decides first, order within the block next.
  lemma {:induction false} FirstMatchByBlocks(blocks: seq<seq<HTTPRoute>>, q: Request)
    ensures FirstBlock(blocks, q).Some? ==> FirstBlock(blocks, q).value.0 < |blocks|
    ensures FirstMatch(Flatten(blocks), q)
         == if FirstBlock(blocks, q).Some? then Some(Place(blocks, FirstBlock(blocks, q).value)) else None
    decreases |blocks|
  {
    if blocks != [] {
      var k := |blocks| - 1;
      FirstMatchByBlocks(blocks[..k], q);
      FirstMatchConcat(Flatten(blocks[..k]), blocks[k], q);
      if FirstBlock(blocks[..k], q).Some? {
        var p := FirstBlock(blocks[..k], q).value;
        assert blocks[..k][..p.0] == blocks[..p.0];
      }
    }
  }

  // ---------- what a block says ----------

  function TimeoutOf(es: EdgeService, route: Route): Option<Duration> {
    GetFinalRouteTimeout(if Targeted(es) then GetRouteTimeout(route) else NewDuration(route.timeout))
  }

  // The timeout of a route's rules: milliseconds with targets, else nanoseconds; none
  // up to a millisecond.
  lemma TimeoutCounts(es: EdgeService, route: Route)
    ensures var unit := if es.targets.Some? && es.targetGroups.Some? then 1_000_000 else 1;
            match TimeoutOf(es, route)
            case Some(d) => Nanoseconds(d) == route.timeout * unit && route.timeout * unit > 1_000_000
            case None => route.timeout * unit <= 1_000_000
  {
    TimeoutUnits(route);
  }

  // A rule with the prefix and rewrite of one route and the timeout of another.
  predicate ServesAs(r: HTTPRoute, es: EdgeService, route: Route, origin: Route) {
    r.prefix == origin.inbound && r.authority.None? && r.rewrite == Some(origin.outbound) && r.timeout == TimeoutOf(es, route)
  }

  // A rule of the route: its prefix, its rewrite, its timeout, any authority.
  predicate Serves(r: HTTPRoute, es: EdgeService, route: Route) { ServesAs(r, es, route, route) }

  // The route has neither app nor service rules and falls back to environments.
  predicate Falls(tc: TrafficConfig, es: EdgeService, route: Route) {
    if Targeted(es) then
      && AppsOf(OverridesFor(es, route), Infos(tc, es.targets, route)) == {}
      && ServiceDestinations(ServiceDial(es.targetGroups.value), Infos(tc, es.targets, route)) == []
    else route.config.None?
  }

  // A route of the name has environments.
  predicate HasEnvs(routes: seq<Route>, name: string) {
    exists r <- routes :: r.name == name && r.workloadEnvSelectors != []
  }

  // The route gets at least one rule.
  predicate Emits(tc: TrafficConfig, es: EdgeService, route: Route) {
    if Falls(tc, es, route) then HasEnvs(es.routes, route.name) else Targeted(es)
  }

  predicate SameWay(a: Route, b: Route) { a.inbound == b.inbound && a.outbound == b.outbound }

  // Whatever a route that falls back shares its name with, it shares its way with.
  predicate NamesAgree(tc: TrafficConfig, es: EdgeService) {
    forall a <- es.routes :: Falls(tc, es, a) ==>
      forall b <- es.routes :: b.name == a.name && b.workloadEnvSelectors != [] ==> SameWay(a, b)
  }

  predicate UniqueNames(routes: seq<Route>) {
    forall i, j :: 0 <= i < j < |routes| ==> routes[i].name != routes[j].name
  }

  lemma UniqueNamesAgree(tc: TrafficConfig, es: EdgeService)
    requires UniqueNames(es.routes)
    ensures NamesAgree(tc, es)
  {
  }

  // ---------- environment rules ----------

  lemma {:induction false} EmptyRulesHold(tc: TrafficConfig, routes: seq<Route>, name: string, timeout: Duration, r: Route)
    requires r in routes && r.name == name && r.workloadEnvSelectors != []
    ensures EnvRule(tc, name, timeout, r, r.workloadEnvSelectors[0]) in EmptyRules(tc, routes, name, timeout)
    decreases |routes|
  {
    var n := |routes| - 1;
    if r in routes[..n] {
      EmptyRulesHold(tc, routes[..n], name, timeout, r);
    } else {
      assert EnvRules(tc, name, timeout, r, r.workloadEnvSelectors)[0] in EnvRules(tc, name, timeout, r, r.workloadEnvSelectors);
    }
  }

  // Rules only come from routes of the name that have environments.
  lemma {:induction false} EmptyRulesOnly(tc: TrafficConfig, routes: seq<Route>, name: string, timeout: Duration, r: HTTPRoute)
    requires r in EmptyRules(tc, routes, name, timeout)
    ensures exists o <- routes :: o.name == name && o.workloadEnvSelectors != [] && r.prefix == o.inbound
                                  && r.authority.None? && r.rewrite == Some(o.outbound)
                                  && r.timeout == GetFinalRouteTimeout(timeout)
    decreases |routes|
  {
    var n := |routes| - 1;
    if r in EmptyRules(tc, routes[..n], name, timeout) {
      EmptyRulesOnly(tc, routes[..n], name, timeout, r);
    } else {
      assert routes[n] in routes;
    }
  }

  lemma EmptyRulesServe(tc: TrafficConfig, es: EdgeService, route: Route, timeout: Duration)
    requires NamesAgree(tc, es) && Falls(tc, es, route) && route in es.routes
    requires GetFinalRouteTimeout(timeout) == TimeoutOf(es, route)
    ensures forall r <- EmptyRules(tc, es.routes, route.name, timeout) :: Serves(r, es, route)
  {
    forall r <- EmptyRules(tc, es.routes, route.name, timeout) ensures Serves(r, es, route) {
      EmptyRulesOnly(tc, es.routes, route.name, timeout, r);
    }
  }

  lemma EmptyRulesEmit(tc: TrafficConfig, routes: seq<Route>, name: string, timeout: Duration)
    ensures EmptyRules(tc, routes, name, timeout) != [] <==> HasEnvs(routes, name)
  {
    if HasEnvs(routes, name) {
      var r :| r in routes && r.name == name && r.workloadEnvSelectors != [];
      EmptyRulesHold(tc, routes, name, timeout, r);
    }
    if EmptyRules(tc, routes, name, timeout) != [] {
      EmptyRulesOnly(tc, routes, name, timeout, EmptyRules(tc, routes, name, timeout)[0]);
    }
  }

  // ---------- one route's block ----------

  function DurationOf(es: EdgeService, route: Route): Duration {
    if Targeted(es) then GetRouteTimeout(route) else NewDuration(route.timeout)
  }

  lemma NoAliasesNoApps(aliases: seq<string>, d: RouteDetails)
    requires InOrder(aliases, d)
    ensures aliases == [] <==> d.apps.Keys == {}
  {
    if aliases != [] { assert aliases[0] in Elements(aliases); }
  }

  // A route that falls back gets the environment rules of its name; any other
  // gets rules of its own.
  lemma PartsShape(block: seq<HTTPRoute>, tc: TrafficConfig, es: EdgeService, route: Route, d: RouteDetails, aliases: seq<string>)
    requires Targeted(es) && DetailsOf(d, tc, es, route) && Parts(block, tc, es.routes, d, aliases)
    ensures Falls(tc, es, route) ==> block == EmptyRules(tc, es.routes, route.name, DurationOf(es, route))
    ensures !Falls(tc, es, route) ==> block != [] && forall r <- block :: Serves(r, es, route)
  {
    NoAliasesNoApps(aliases, d);
    if !Falls(tc, es, route) { OwnRules(block, tc, es, route, d, aliases); }
  }

  // A rule of the details, whatever its name and destinations.
  predicate ByDetails(r: HTTPRoute, d: RouteDetails) {
    r.prefix == d.inbound && r.authority.None? && r.rewrite == Some(d.outbound) && r.timeout == GetFinalRouteTimeout(d.timeout)
  }

  lemma PartsByDetails(block: seq<HTTPRoute>, tc: TrafficConfig, routes: seq<Route>, d: RouteDetails, aliases: seq<string>)
    requires Parts(block, tc, routes, d, aliases) && (d.apps.Keys != {} || d.service != [])
    ensures block != [] && forall r <- block :: ByDetails(r, d)
  {
    NoAliasesNoApps(aliases, d);
  }

  lemma OwnRules(block: seq<HTTPRoute>, tc: TrafficConfig, es: EdgeService, route: Route, d: RouteDetails, aliases: seq<string>)
    requires Targeted(es) && DetailsOf(d, tc, es, route) && Parts(block, tc, es.routes, d, aliases)
    requires d.apps.Keys != {} || d.service != []
    ensures block != [] && forall r <- block :: Serves(r, es, route)
  {
    PartsByDetails(block, tc, es.routes, d, aliases);
    assert forall r :: ByDetails(r, d) ==> Serves(r, es, route);
  }

  lemma BlockShape(block: seq<HTTPRoute>, tc: TrafficConfig, es: EdgeService, route: Route)
    requires BlockFor(block, tc, es, route)
    ensures Falls(tc, es, route) ==> block == EmptyRules(tc, es.routes, route.name, DurationOf(es, route))
    ensures !Falls(tc, es, route) ==> (block != [] <==> Targeted(es)) && forall r <- block :: Serves(r, es, route)
  {
    if Targeted(es) {
      var d :| DetailsOf(d, tc, es, route) && IsBlock(block, tc, es.routes, d);
      var aliases :| Parts(block, tc, es.routes, d, aliases);
      PartsShape(block, tc, es, route, d, aliases);
    }
  }

  lemma BlockMeansRoute(block: seq<HTTPRoute>, tc: TrafficConfig, es: EdgeService, route: Route)
    requires route in es.routes && BlockFor(block, tc, es, route)
    ensures NamesAgree(tc, es) ==> forall r <- block :: Serves(r, es, route)
    ensures block != [] <==> Emits(tc, es, route)
  {
    BlockShape(block, tc, es, route);
    EmptyRulesEmit(tc, es.routes, route.name, DurationOf(es, route));
    if NamesAgree(tc, es) && Falls(tc, es, route) {
      EmptyRulesServe(tc, es, route, DurationOf(es, route));
    }
  }

  // ---------- exactly when every rule serves its route ----------

  ghost predicate AllServe(es: EdgeService, blocks: seq<seq<HTTPRoute>>)
    requires |blocks| == |es.routes|
  {
    forall k :: 0 <= k < |blocks| ==> forall r <- blocks[k] :: Serves(r, es, es.routes[k])
  }

  lemma ForeignRule(block: seq<HTTPRoute>, tc: TrafficConfig, es: EdgeService, a: Route, b: Route) returns (r: HTTPRoute)
    requires BlockFor(block, tc, es, a) && Falls(tc, es, a)
    requires b in es.routes && b.name == a.name && b.workloadEnvSelectors != [] && !SameWay(a, b)
    ensures r in block && !Serves(r, es, a)
  {
    BlockShape(block, tc, es, a);
    r := EnvRule(tc, a.name, DurationOf(es, a), b, b.workloadEnvSelectors[0]);
    EmptyRulesHold(tc, es.routes, a.name, DurationOf(es, a), b);
  }

  // Some rule in the block of a route that falls back leads elsewhere.
  lemma DisagreeingStray(tc: TrafficConfig, es: EdgeService, blocks: seq<seq<HTTPRoute>>)
    requires BlocksFor(blocks, tc, es) && |blocks| == |es.routes| && !NamesAgree(tc, es)
    ensures !AllServe(es, blocks)
  {
    hide Falls, SameWay, BlockFor, Serves;
    var a :| a in es.routes && Falls(tc, es, a)
             && exists b <- es.routes :: b.name == a.name && b.workloadEnvSelectors != [] && !SameWay(a, b);
    var b :| b in es.routes && b.name == a.name && b.workloadEnvSelectors != [] && !SameWay(a, b);
    var k :| 0 <= k < |es.routes| && es.routes[k] == a;
    var r := ForeignRule(blocks[k], tc, es, a, b);
    assert !Serves(r, es, es.routes[k]);
  }

  // Every rule of every block serves its route if and only if the names agree.
  lemma ServesIffNamesAgree(rules: seq<HTTPRoute>, tc: TrafficConfig, es: EdgeService, blocks: seq<seq<HTTPRoute>>)
    requires Compiled(rules, tc, es, blocks)
    ensures AllServe(es, blocks) <==> NamesAgree(tc, es)
  {
    hide BlockFor, Serves;
    if NamesAgree(tc, es) {
      hide NamesAgree;
      forall k | 0 <= k < |blocks| ensures forall r <- blocks[k] :: Serves(r, es, es.routes[k]) {
        BlockMeansRoute(blocks[k], tc, es, es.routes[k]);
      }
    } else {
      DisagreeingStray(tc, es, blocks);
    }
  }

  // ---------- the configuration's own meaning ----------

  predicate Takes(tc: TrafficConfig, es: EdgeService, route: Route, q: Request) {
    route.inbound <= q.path && Emits(tc, es, route)
  }

  // The first configured route that takes the path and gets a rule.
  function FirstRoute(tc: TrafficConfig, es: EdgeService, routes: seq<Route>, q: Request): Option<nat> {
    if routes == [] then None
    else
      var k := |routes| - 1;
      if FirstRoute(tc, es, routes[..k], q).Some? then FirstRoute(tc, es, routes[..k], q)
      else if Takes(tc, es, routes[k], q) then Some(k)
      else None
  }

  lemma {:induction false} FirstRouteIsFirst(tc: TrafficConfig, es: EdgeService, routes: seq<Route>, q: Request)
    ensures match FirstRoute(tc, es, routes, q)
            case None => forall i :: 0 <= i < |routes| ==> !Takes(tc, es, routes[i], q)
            case Some(k) => k < |routes| && Takes(tc, es, routes[k], q) && forall i :: 0 <= i < k ==> !Takes(tc, es, routes[i], q)
    decreases |routes|
  {
    hide Takes;
    if routes != [] { FirstRouteIsFirst(tc, es, routes[..|routes| - 1], q); }
  }

  lemma AllMatchOrNone(block: seq<HTTPRoute>, prefix: string, q: Request)
    requires forall r <- block :: r.prefix == prefix && r.authority.None?
    ensures FirstMatch(block, q) == if block != [] && prefix <= q.path then Some(0) else None
    decreases |block|
  {
    FirstMatchIsFirst(block, q);
    forall i | 0 <= i < |block| ensures Matches(block[i], q) <==> prefix <= q.path {
      assert block[i] in block;
    }
  }

  lemma BlockTakes(block: seq<HTTPRoute>, tc: TrafficConfig, es: EdgeService, route: Route, q: Request)
    requires NamesAgree(tc, es) && route in es.routes && BlockFor(block, tc, es, route)
    ensures FirstMatch(block, q) == if Takes(tc, es, route, q) then Some(0) else None
  {
    BlockMeansRoute(block, tc, es, route);
    AllMatchOrNone(block, route.inbound, q);
  }

  // The winning rule is the first of block w.
  predicate TakesFirst(blocks: seq<seq<HTTPRoute>>, q: Request, w: Option<nat>) {
    FirstBlock(blocks, q) == if w.Some? then Some((w.value, 0)) else None
  }

  function FirstTrue(takes: seq<bool>): Option<nat> {
    if takes == [] then None
    else
      var k := |takes| - 1;
      if FirstTrue(takes[..k]).Some? then FirstTrue(takes[..k]) else if takes[k] then Some(k) else None
  }

  lemma {:induction false} FirstBlockByTakes(blocks: seq<seq<HTTPRoute>>, q: Request, takes: seq<bool>)
    requires |takes| == |blocks|
    requires forall k :: 0 <= k < |blocks| ==> FirstMatch(blocks[k], q) == if takes[k] then Some(0) else None
    ensures TakesFirst(blocks, q, FirstTrue(takes))
    decreases |blocks|
  {
    if blocks != [] { FirstBlockByTakes(blocks[..|blocks| - 1], q, takes[..|blocks| - 1]); }
  }

  lemma {:induction false} FirstRouteByTakes(tc: TrafficConfig, es: EdgeService, routes: seq<Route>, q: Request, takes: seq<bool>)
    requires |takes| == |routes| && forall k :: 0 <= k < |routes| ==> takes[k] == Takes(tc, es, routes[k], q)
    ensures FirstRoute(tc, es, routes, q) == FirstTrue(takes)
    decreases |routes|
  {
    if routes != [] { FirstRouteByTakes(tc, es, routes[..|routes| - 1], q, takes[..|routes| - 1]); }
  }

  // The winning block is the first serving route's, and its first rule wins.
  lemma FirstBlockIsFirstRoute(blocks: seq<seq<HTTPRoute>>, tc: TrafficConfig, es: EdgeService, q: Request)
    requires NamesAgree(tc, es) && |blocks| == |es.routes| && BlocksFor(blocks, tc, es)
    ensures TakesFirst(blocks, q, FirstRoute(tc, es, es.routes, q))
  {
    var takes := seq(|es.routes|, k requires 0 <= k < |es.routes| => Takes(tc, es, es.routes[k], q));
    FirstRouteByTakes(tc, es, es.routes, q, takes);
    forall k | 0 <= k < |blocks| ensures FirstMatch(blocks[k], q) == if takes[k] then Some(0) else None {
      BlockTakes(blocks[k], tc, es, es.routes[k], q);
    }
    FirstBlockByTakes(blocks, q, takes);
  }

  // The first workload environment whose host the authority starts with.
  function FirstHost(tc: TrafficConfig, envs: seq<string>, q: Request): Option<nat> {
    if envs == [] then None
    else
      var k := |envs| - 1;
      if FirstHost(tc, envs[..k], q).Some? then FirstHost(tc, envs[..k], q)
      else if "/" <= q.path && HostOf(tc, envs[k]) <= q.authority then Some(k)
      else None
  }

  // A path from "/" on and an authority starting with an environment's host.
  predicate AtHost(tc: TrafficConfig, env: string, q: Request) {
    "/" <= q.path && ToLower(env + "." + tc.identity + "." + tc.suffix) <= q.authority
  }

  lemma {:induction false} FirstHostIsFirst(tc: TrafficConfig, envs: seq<string>, q: Request)
    ensures match FirstHost(tc, envs, q)
            case None => forall i :: 0 <= i < |envs| ==> !AtHost(tc, envs[i], q)
            case Some(k) => k < |envs| && AtHost(tc, envs[k], q) && forall i :: 0 <= i < k ==> !AtHost(tc, envs[i], q)
    decreases |envs|
  {
    if envs != [] {
      FirstHostIsFirst(tc, envs[..|envs| - 1], q);
      HostOfEnv(tc, envs[|envs| - 1]);
      hide HostOf, ToLower;
    }
  }

  lemma HostIsLower(tc: TrafficConfig, env: string)
    ensures ToLower(HostOf(tc, env)) == HostOf(tc, env)
  {
    ToLowerIsLower(env + "." + ToLower(tc.identity) + "." + tc.suffix);
    LowerFixed(HostOf(tc, env));
  }

  lemma {:induction false} DefaultsByHost(tc: TrafficConfig, timeout: Option<Duration>, n: nat, q: Request)
    requires n <= |tc.workloadEnv|
    ensures FirstMatch(Defaults(tc, timeout)[..n], q) == FirstHost(tc, tc.workloadEnv[..n], q)
  {
    if n > 0 {
      DefaultsByHost(tc, timeout, n - 1, q);
      assert Defaults(tc, timeout)[..n][..n - 1] == Defaults(tc, timeout)[..n - 1];
      assert tc.workloadEnv[..n][..n - 1] == tc.workloadEnv[..n - 1];
      HostIsLower(tc, tc.workloadEnv[n - 1]);
    }
  }

  // ---------- compilation preserves routing ----------

  // Whatever the route names: the first block with a matching rule wins, and
  // the defaults come last.
  lemma RoutingByBlocks(rules: seq<HTTPRoute>, tc: TrafficConfig, blocks: seq<seq<HTTPRoute>>, q: Request)
    requires Assembled(rules, tc, blocks)
    ensures FirstBlock(blocks, q).Some? ==> FirstBlock(blocks, q).value.0 < |blocks|
    ensures FirstMatch(rules, q)
         == match FirstBlock(blocks, q)
            case Some(p) => Some(Place(blocks, p))
            case None => Shifted(FirstHost(tc, tc.workloadEnv, q), |Flatten(blocks)|)
  {
    var timeout := LongestTimeout(Flatten(blocks));
    FirstMatchByBlocks(blocks, q);
    FirstMatchConcat(Flatten(blocks), Defaults(tc, timeout), q);
    DefaultsByHost(tc, timeout, |tc.workloadEnv|, q);
    assert Defaults(tc, timeout)[..|tc.workloadEnv|] == Defaults(tc, timeout);
    assert tc.workloadEnv[..|tc.workloadEnv|] == tc.workloadEnv;
  }

  lemma {:induction false} FlattenAt(blocks: seq<seq<HTTPRoute>>, k: nat, i: nat)
    requires k < |blocks| && i < |blocks[k]|
    ensures |Flatten(blocks[..k])| + i < |Flatten(blocks)|
    ensures Flatten(blocks)[|Flatten(blocks[..k])| + i] == blocks[k][i]
    decreases |blocks|
  {
    var n := |blocks| - 1;
    if k < n {
      FlattenAt(blocks[..n], k, i);
      assert blocks[..n][..k] == blocks[..k];
    }
  }

  // The winner when a route takes the request.
  ghost predicate RouteWins(rules: seq<HTTPRoute>, es: EdgeService, blocks: seq<seq<HTTPRoute>>, k: nat, q: Request) {
    && k < |blocks| && k < |es.routes| && blocks[k] != [] && |Flatten(blocks[..k])| < |rules|
    && FirstMatch(rules, q) == Some(|Flatten(blocks[..k])|)
    && rules[|Flatten(blocks[..k])|] == blocks[k][0] && Serves(blocks[k][0], es, es.routes[k])
  }

  // The winner when none does.
  predicate DefaultWins(rules: seq<HTTPRoute>, tc: TrafficConfig, before: seq<HTTPRoute>, q: Request) {
    match FirstHost(tc, tc.workloadEnv, q)
    case Some(e) =>
      && e < |tc.workloadEnv| && |before| + e < |rules| && FirstMatch(rules, q) == Some(|before| + e)
      && DefaultFits(rules[|before| + e], tc, tc.workloadEnv[e], LongestTimeout(before))
    case None => FirstMatch(rules, q) == None
  }

  lemma BlockStartsAt(rules: seq<HTTPRoute>, blocks: seq<seq<HTTPRoute>>, rest: seq<HTTPRoute>, k: nat, i: nat)
    requires rules == Flatten(blocks) + rest && k < |blocks| && i < |blocks[k]|
    ensures |Flatten(blocks[..k])| + i < |rules| && rules[|Flatten(blocks[..k])| + i] == blocks[k][i]
  {
    FlattenAt(blocks, k, i);
  }

  lemma {:induction false} FirstHostInRange(tc: TrafficConfig, envs: seq<string>, q: Request)
    ensures FirstHost(tc, envs, q).Some? ==> FirstHost(tc, envs, q).value < |envs|
    decreases |envs|
  {
    if envs != [] { FirstHostInRange(tc, envs[..|envs| - 1], q); }
  }

  // The request goes to route w, by the first rule of its block; without one to
  // a default.
  ghost predicate RoutedTo(rules: seq<HTTPRoute>, tc: TrafficConfig, es: EdgeService, blocks: seq<seq<HTTPRoute>>, q: Request,
                           w: Option<nat>)
  {
    match w
    case Some(k) => RouteWins(rules, es, blocks, k, q)
    case None => DefaultWins(rules, tc, Flatten(blocks), q)
  }

  lemma RoutedByBlock(rules: seq<HTTPRoute>, tc: TrafficConfig, es: EdgeService, blocks: seq<seq<HTTPRoute>>, q: Request,
                      w: Option<nat>)
    requires Assembled(rules, tc, blocks) && |blocks| == |es.routes| && AllServe(es, blocks) && TakesFirst(blocks, q, w)
    ensures RoutedTo(rules, tc, es, blocks, q, w)
  {
    RoutingByBlocks(rules, tc, blocks, q);
    match w {
      case Some(k) =>
        FirstBlockInRange(blocks, q);
        BlockStartsAt(rules, blocks, Defaults(tc, LongestTimeout(Flatten(blocks))), k, 0);
        assert blocks[k][0] in blocks[k];
      case None => WinningDefault(rules, tc, Flatten(blocks), q);
    }
  }

  lemma WinningDefault(rules: seq<HTTPRoute>, tc: TrafficConfig, before: seq<HTTPRoute>, q: Request)
    requires rules == before + Defaults(tc, LongestTimeout(before))
    requires FirstMatch(rules, q) == Shifted(FirstHost(tc, tc.workloadEnv, q), |before|)
    ensures DefaultWins(rules, tc, before, q)
  {
    FirstHostInRange(tc, tc.workloadEnv, q);
    match FirstHost(tc, tc.workloadEnv, q) {
      case Some(e) => DefaultRuleFits(tc, tc.workloadEnv[e], LongestTimeout(before));
      case None =>
    }
  }

  // When route names agree, and for every order the maps may be ranged over:
  // the winning rule is the first rule of the first configured route that takes
  // the path and gets a rule; without such a route it is the default rule of the
  // first environment whose host starts the authority, for a path from "/" on.
  lemma RoutingPreserved(rules: seq<HTTPRoute>, tc: TrafficConfig, es: EdgeService, blocks: seq<seq<HTTPRoute>>, q: Request)
    requires Compiled(rules, tc, es, blocks) && NamesAgree(tc, es)
    ensures RoutedTo(rules, tc, es, blocks, q, FirstRoute(tc, es, es.routes, q))
  {
    ServesIffNamesAgree(rules, tc, es, blocks);
    FirstBlockIsFirstRoute(blocks, tc, es, q);
    RoutedByBlock(rules, tc, es, blocks, q, FirstRoute(tc, es, es.routes, q));
  }
}
