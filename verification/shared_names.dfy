// Routes that share a name: which rule then wins, and for which requests that is
// not what the configuration says.
module SharedNames {
  import opened Wrappers
  import opened Text
  import opened VirtualService
  import opened RouteDetailing
  import opened RoutingRules
  import opened Routing

  // ---------- the winner, for any names ----------

  // The first route of the name with an environment that takes the path.
  function Origin(routes: seq<Route>, name: string, q: Request): Option<nat> {
    if routes == [] then None
    else
      var k := |routes| - 1;
      if Origin(routes[..k], name, q).Some? then Origin(routes[..k], name, q)
      else if routes[k].name == name && routes[k].workloadEnvSelectors != [] && routes[k].inbound <= q.path then Some(k)
      else None
  }

  // The route whose way the block of route k offers the request, if any.
  function Offer(tc: TrafficConfig, es: EdgeService, k: nat, q: Request): Option<nat>
    requires k < |es.routes|
  {
    if Falls(tc, es, es.routes[k]) then Origin(es.routes, es.routes[k].name, q)
    else if Targeted(es) && es.routes[k].inbound <= q.path then Some(k)
    else None
  }

  // The first of the first n routes with an offer, and the offer.
  function Taker(tc: TrafficConfig, es: EdgeService, n: nat, q: Request): Option<(nat, nat)>
    requires n <= |es.routes|
  {
    if n == 0 then None
    else if Taker(tc, es, n - 1, q).Some? then Taker(tc, es, n - 1, q)
    else if Offer(tc, es, n - 1, q).Some? then Some((n - 1, Offer(tc, es, n - 1, q).value))
    else None
  }

  predicate OfferedBy(r: HTTPRoute, routes: seq<Route>, origin: Option<nat>, timeout: Duration) {
    && origin.Some? && origin.value < |routes|
    && r.prefix == routes[origin.value].inbound && r.authority.None?
    && r.rewrite == Some(routes[origin.value].outbound) && r.timeout == GetFinalRouteTimeout(timeout)
  }

  lemma EnvRulesOffer(tc: TrafficConfig, name: string, timeout: Duration, route: Route, q: Request)
    ensures var rules := EnvRules(tc, name, timeout, route, route.workloadEnvSelectors);
            FirstMatch(rules, q) == if route.workloadEnvSelectors != [] && route.inbound <= q.path then Some(0) else None
  {
    AllMatchOrNone(EnvRules(tc, name, timeout, route, route.workloadEnvSelectors), route.inbound, q);
  }

  lemma {:induction false} EmptyRulesOffer(tc: TrafficConfig, routes: seq<Route>, name: string, timeout: Duration, q: Request)
    ensures var rules := EmptyRules(tc, routes, name, timeout);
            match FirstMatch(rules, q)
            case Some(i) => i < |rules| && OfferedBy(rules[i], routes, Origin(routes, name, q), timeout)
            case None => Origin(routes, name, q).None?
    decreases |routes|
  {
    if routes != [] {
      var k := |routes| - 1;
      var before := EmptyRules(tc, routes[..k], name, timeout);
      var more := if routes[k].name == name then EnvRules(tc, name, timeout, routes[k], routes[k].workloadEnvSelectors) else [];
      EmptyRulesOffer(tc, routes[..k], name, timeout, q);
      FirstMatchConcat(before, more, q);
      EnvRulesOffer(tc, name, timeout, routes[k], q);
      var i := FirstMatch(before, q);
      if i.Some? {
        assert (before + more)[i.value] == before[i.value];
      } else {
        assert more != [] ==> (before + more)[|before|] == more[0];
      }
    }
  }

  lemma BlockOffers(block: seq<HTTPRoute>, tc: TrafficConfig, es: EdgeService, k: nat, q: Request)
    requires k < |es.routes| && BlockFor(block, tc, es, es.routes[k])
    ensures match FirstMatch(block, q)
            case Some(i) => i < |block| && OfferedBy(block[i], es.routes, Offer(tc, es, k, q), DurationOf(es, es.routes[k]))
            case None => Offer(tc, es, k, q).None?
  {
    var route := es.routes[k];
    BlockShape(block, tc, es, route);
    if Falls(tc, es, route) {
      EmptyRulesOffer(tc, es.routes, route.name, DurationOf(es, route), q);
    } else {
      AllMatchOrNone(block, route.inbound, q);
    }
  }

  // The winning rule stands in the block of the first route with an offer and
  // has the way of the route offered.
  lemma {:induction false} WinnerIsTaker(blocks: seq<seq<HTTPRoute>>, tc: TrafficConfig, es: EdgeService, q: Request)
    requires BlocksFor(blocks, tc, es)
    ensures match FirstBlock(blocks, q)
            case Some(p) =>
              && p.0 < |blocks| && p.1 < |blocks[p.0]| && Taker(tc, es, |blocks|, q).Some?
              && Taker(tc, es, |blocks|, q).value.0 == p.0
              && OfferedBy(blocks[p.0][p.1], es.routes, Some(Taker(tc, es, |blocks|, q).value.1), DurationOf(es, es.routes[p.0]))
            case None => Taker(tc, es, |blocks|, q).None?
    decreases |blocks|
  {
    hide BlockFor, Offer, OfferedBy, FirstMatch, DurationOf;
    if blocks != [] {
      var k := |blocks| - 1;
      WinnerIsTaker(blocks[..k], tc, es, q);
      BlockOffers(blocks[k], tc, es, k, q);
    }
  }

  // ---------- exactly which requests are misrouted ----------

  // The rule that wins is one of the configured route's, and leads its way;
  // without such a route a default wins.
  ghost predicate RightlyRouted(rules: seq<HTTPRoute>, tc: TrafficConfig, es: EdgeService, blocks: seq<seq<HTTPRoute>>, q: Request)
    requires |blocks| == |es.routes|
  {
    match FirstRoute(tc, es, es.routes, q)
    case Some(k) =>
      k < |blocks| && exists i: nat :: i < |blocks[k]| && FirstMatch(rules, q) == Some(Place(blocks, (k, i)))
                                       && Serves(blocks[k][i], es, es.routes[k])
    case None => DefaultWins(rules, tc, Flatten(blocks), q)
  }

  // Read off the configuration: the first route with an offer is the first route
  // that takes the path and gets a rule, and what it offers is its own way.
  predicate OffersAgree(tc: TrafficConfig, es: EdgeService, q: Request) {
    match Taker(tc, es, |es.routes|, q)
    case Some(p) =>
      p.0 < |es.routes| && p.1 < |es.routes|
      && FirstRoute(tc, es, es.routes, q) == Some(p.0) && SameWay(es.routes[p.0], es.routes[p.1])
    case None => FirstRoute(tc, es, es.routes, q).None?
  }

  lemma {:induction false} BlocksInOrder(blocks: seq<seq<HTTPRoute>>, k: nat, l: nat)
    requires k < l <= |blocks|
    ensures |Flatten(blocks[..k])| + |blocks[k]| <= |Flatten(blocks[..l])|
    decreases l
  {
    assert blocks[..l][..l - 1] == blocks[..l - 1];
    if k < l - 1 { BlocksInOrder(blocks, k, l - 1); }
  }

  lemma PlaceUnique(blocks: seq<seq<HTTPRoute>>, p: (nat, nat), k: nat, i: nat)
    requires p.0 < |blocks| && k < |blocks| && p.1 < |blocks[p.0]| && i < |blocks[k]|
    requires Place(blocks, p) == Place(blocks, (k, i))
    ensures p == (k, i)
  {
    if p.0 < k { BlocksInOrder(blocks, p.0, k); }
    if k < p.0 { BlocksInOrder(blocks, k, p.0); }
  }

  lemma {:induction false} FirstRouteInRange(tc: TrafficConfig, es: EdgeService, routes: seq<Route>, q: Request)
    ensures FirstRoute(tc, es, routes, q).Some? ==> FirstRoute(tc, es, routes, q).value < |routes|
    decreases |routes|
  {
    if routes != [] { FirstRouteInRange(tc, es, routes[..|routes| - 1], q); }
  }

  lemma TakenElsewhere(rules: seq<HTTPRoute>, es: EdgeService, blocks: seq<seq<HTTPRoute>>, q: Request, p: (nat, nat), k: nat, i: nat)
    requires p.0 < |blocks| && p.1 < |blocks[p.0]| && k < |blocks| && i < |blocks[k]|
    requires FirstMatch(rules, q) == Some(Place(blocks, p)) == Some(Place(blocks, (k, i)))
    ensures p == (k, i)
  {
    PlaceUnique(blocks, p, k, i);
  }

  // With the winner in a block: the configured route has to be the one, and its
  // rule has to lead its way.
  lemma RightInBlock(rules: seq<HTTPRoute>, es: EdgeService, blocks: seq<seq<HTTPRoute>>, q: Request, p: (nat, nat), k: nat)
    requires p.0 < |blocks| == |es.routes| && p.1 < |blocks[p.0]| && k < |blocks|
    requires FirstMatch(rules, q) == Some(Place(blocks, p))
    ensures (exists i: nat :: i < |blocks[k]| && FirstMatch(rules, q) == Some(Place(blocks, (k, i)))
                              && Serves(blocks[k][i], es, es.routes[k]))
            <==> k == p.0 && Serves(blocks[p.0][p.1], es, es.routes[p.0])
  {
    forall i: nat | i < |blocks[k]| && FirstMatch(rules, q) == Some(Place(blocks, (k, i))) ensures p == (k, i) {
      TakenElsewhere(rules, es, blocks, q, p, k, i);
    }
    if k == p.0 { assert FirstMatch(rules, q) == Some(Place(blocks, (k, p.1))); }
  }

  lemma RightWhenTaken(rules: seq<HTTPRoute>, tc: TrafficConfig, es: EdgeService, blocks: seq<seq<HTTPRoute>>, q: Request,
                       p: (nat, nat))
    requires Compiled(rules, tc, es, blocks) && FirstBlock(blocks, q) == Some(p)
    ensures RightlyRouted(rules, tc, es, blocks, q) <==> OffersAgree(tc, es, q)
  {
    WinnerIsTaker(blocks, tc, es, q);
    var j := Taker(tc, es, |es.routes|, q).value.1;
    assert Serves(blocks[p.0][p.1], es, es.routes[p.0]) <==> SameWay(es.routes[p.0], es.routes[j]);
    assert FirstMatch(rules, q) == Some(Place(blocks, p)) by { RoutingByBlocks(rules, tc, blocks, q); }
    match FirstRoute(tc, es, es.routes, q) {
      case None => NotADefault(rules, tc, blocks, q, p);
      case Some(k) =>
        FirstRouteInRange(tc, es, es.routes, q);
        RightInBlock(rules, es, blocks, q, p, k);
    }
  }

  lemma NotADefault(rules: seq<HTTPRoute>, tc: TrafficConfig, blocks: seq<seq<HTTPRoute>>, q: Request, p: (nat, nat))
    requires p.0 < |blocks| && p.1 < |blocks[p.0]| && FirstMatch(rules, q) == Some(Place(blocks, p))
    ensures !DefaultWins(rules, tc, Flatten(blocks), q)
  {
    FlattenAt(blocks, p.0, p.1);
  }

  // For any names: a request is routed as configured if and only if the offers
  // agree on it.
  lemma RightlyRoutedIff(rules: seq<HTTPRoute>, tc: TrafficConfig, es: EdgeService, blocks: seq<seq<HTTPRoute>>, q: Request)
    requires Compiled(rules, tc, es, blocks)
    ensures RightlyRouted(rules, tc, es, blocks, q) <==> OffersAgree(tc, es, q)
  {
    WinnerIsTaker(blocks, tc, es, q);
    if FirstBlock(blocks, q).Some? {
      RightWhenTaken(rules, tc, es, blocks, q, FirstBlock(blocks, q).value);
    } else {
      RightWhenNotTaken(rules, tc, es, blocks, q);
    }
  }

  // A default rule stands behind every block.
  lemma DefaultsBehind(blocks: seq<seq<HTTPRoute>>, w: Option<nat>, k: nat, i: nat)
    requires k < |blocks| && i < |blocks[k]|
    ensures Shifted(w, |Flatten(blocks)|) != Some(Place(blocks, (k, i)))
  {
    FlattenAt(blocks, k, i);
  }

  lemma NoRouteWins(rules: seq<HTTPRoute>, es: EdgeService, blocks: seq<seq<HTTPRoute>>, q: Request, w: Option<nat>, k: nat)
    requires k < |blocks| == |es.routes| && FirstMatch(rules, q) == Shifted(w, |Flatten(blocks)|)
    ensures !exists i: nat :: i < |blocks[k]| && FirstMatch(rules, q) == Some(Place(blocks, (k, i)))
                              && Serves(blocks[k][i], es, es.routes[k])
  {
    forall i: nat | i < |blocks[k]| ensures FirstMatch(rules, q) != Some(Place(blocks, (k, i))) {
      DefaultsBehind(blocks, w, k, i);
    }
  }

  lemma RightWhenNotTaken(rules: seq<HTTPRoute>, tc: TrafficConfig, es: EdgeService, blocks: seq<seq<HTTPRoute>>, q: Request)
    requires Compiled(rules, tc, es, blocks) && FirstBlock(blocks, q).None?
    ensures RightlyRouted(rules, tc, es, blocks, q) <==> OffersAgree(tc, es, q)
  {
    assert Taker(tc, es, |es.routes|, q).None? by { WinnerIsTaker(blocks, tc, es, q); }
    var w := FirstHost(tc, tc.workloadEnv, q);
    assert FirstMatch(rules, q) == Shifted(w, |Flatten(blocks)|) by { RoutingByBlocks(rules, tc, blocks, q); }
    match FirstRoute(tc, es, es.routes, q) {
      case None => WinningDefault(rules, tc, Flatten(blocks), q);
      case Some(k) =>
        FirstRouteInRange(tc, es, es.routes, q);
        NoRouteWins(rules, es, blocks, q, w, k);
    }
  }

  // ---------- an instance ----------

  function Bare(name: string, inbound: string, env: string): Route { Route(name, inbound, "/", 0, [env], None) }

  const SHADOWED := EdgeService([Bare("r", "/a", "qal"), Bare("s", "/b", "e2e"), Bare("r", "/b", "prd")], None, None)

  lemma OffersDisagree(tc: TrafficConfig)
    ensures FirstRoute(tc, SHADOWED, SHADOWED.routes, Request("/b", "")) == Some(1)
    ensures Taker(tc, SHADOWED, 3, Request("/b", "")) == Some((0, 2))
  {
    var routes := SHADOWED.routes;
    var q := Request("/b", "");
    assert routes[..2][..1] == routes[..1] && routes[..1][..0] == [] && routes[..3] == routes;
    assert !("/a" <= "/b") by { assert "/a"[1] != "/b"[1]; }
    assert routes[1] in routes && HasEnvs(routes, "s");
    assert FirstRoute(tc, SHADOWED, routes[..1], q).None?;
    assert FirstRoute(tc, SHADOWED, routes[..2], q) == Some(1);
    assert Origin(routes[..1], "r", q).None?;
    assert Origin(routes[..2], "r", q).None?;
    assert Origin(routes, "r", q) == Some(2);
    assert Taker(tc, SHADOWED, 1, q) == Some((0, 2));
    assert Taker(tc, SHADOWED, 2, q) == Some((0, 2));
  }

  lemma ShadowedDisagrees(tc: TrafficConfig)
    ensures !NamesAgree(tc, SHADOWED)
  {
    var a, b := SHADOWED.routes[0], SHADOWED.routes[2];
    assert a in SHADOWED.routes && b in SHADOWED.routes;
    assert Falls(tc, SHADOWED, a);
    assert a.inbound[1] != b.inbound[1];
  }

  // The third route's rule comes out with the first one's and takes a request
  // the second route was configured for.
  lemma SharedNameMisroutes(tc: TrafficConfig, rules: seq<HTTPRoute>, blocks: seq<seq<HTTPRoute>>)
    requires Compiled(rules, tc, SHADOWED, blocks)
    ensures !NamesAgree(tc, SHADOWED) && !RightlyRouted(rules, tc, SHADOWED, blocks, Request("/b", ""))
  {
    ShadowedDisagrees(tc);
    var q := Request("/b", "");
    assert !OffersAgree(tc, SHADOWED, q) by { OffersDisagree(tc); }
    RightlyRoutedIff(rules, tc, SHADOWED, blocks, q);
  }
}
