// Which clusters get a traffic config's virtual service, and what becomes of it
// there.
module VirtualServiceClusters {
  import opened Wrappers
  import opened Text
  import opened Iteration
  import opened VirtualService
  import opened RoutingRules
  import WorkloadHandlers

  datatype Object = Object(name: string, hosts: seq<string>, rules: seq<HTTPRoute>)

  // The virtual services of each remote cluster, by name.
  type Servers = map<string, map<string, Object>>

  datatype Event = Event(
    env: string, disabled: bool,
    sourceIdentity: string)  // "" unless triggered for one dependent only

  datatype Scope = Scope(ignored: set<string>, inScope: set<string>)

  predicate Eligible(dependent: string, e: Event, scope: Scope) {
    dependent !in scope.ignored && (e.sourceIdentity == "" || e.sourceIdentity == dependent)
  }

  function ClustersOf(m: WorkloadHandlers.ClusterIndex, identity: string): set<string> {
    if ToLower(identity) in m then m[ToLower(identity)] else {}
  }

  function DependentClusters(dependents: seq<string>, e: Event, scope: Scope, m: WorkloadHandlers.ClusterIndex): set<string> {
    if dependents == [] then {}
    else
      var last := dependents[|dependents| - 1];
      DependentClusters(dependents[..|dependents| - 1], e, scope, m)
      + if Eligible(last, e, scope) then ClustersOf(m, last) else {}
  }

  // A cluster is written to just because some eligible dependent runs there.
  lemma {:induction false} WhyACluster(dependents: seq<string>, e: Event, scope: Scope, m: WorkloadHandlers.ClusterIndex, c: string)
    ensures c in DependentClusters(dependents, e, scope, m) <==> Meant(dependents, e, scope, m, c)
    decreases |dependents|
  {
    if dependents != [] {
      var n := |dependents| - 1;
      WhyACluster(dependents[..n], e, scope, m, c);
      assert dependents == dependents[..n] + [dependents[n]];
    }
  }

  // Field by field: some dependent that is not ignored, and is the one triggered for
  // if there is such a one, runs there.
  predicate Meant(dependents: seq<string>, e: Event, scope: Scope, m: WorkloadHandlers.ClusterIndex, c: string) {
    exists d <- dependents ::
      && d !in scope.ignored && (e.sourceIdentity != "" ==> d == e.sourceIdentity)
      && ToLower(d) in m && c in m[ToLower(d)]
  }

  // The suffix "-vs" to the host of the environment; no name for other environments.
  function GetVirtualServiceName(tc: TrafficConfig, env: string): string {
    if env == "qa" then HostOf(tc, "qal") + "-vs"
    else if env == "e2e" || env == "prd" || env == "prf" then HostOf(tc, env) + "-vs"
    else ""
  }

  // Named after the host of the environment; "qa" counts as "qal".
  predicate NameFits(name: string, tc: TrafficConfig, env: string) {
    && (env in {"e2e", "prd", "prf"} ==> name == ToLower(env + "." + tc.identity + "." + tc.suffix) + "-vs")
    && (env == "qa" ==> name == ToLower("qal." + tc.identity + "." + tc.suffix) + "-vs")
    && (env !in {"qa", "e2e", "prd", "prf"} ==> name == "")
  }

  lemma VirtualServiceNameFits(tc: TrafficConfig, env: string)
    ensures NameFits(GetVirtualServiceName(tc, env), tc, env)
  {
    HostOfEnv(tc, env);
    HostOfEnv(tc, "qal");
    assert "qal" + "." == "qal.";
    assert "qa"[1] == 'a' && "e2e"[1] == '2' && "prd"[2] == 'd' && "prf"[2] == 'f';
  }

  // No edge service still makes a virtual service, without a name.
  function ObjectFor(tc: TrafficConfig, env: string, vs: Built): Option<Object> {
    match vs
    case NoRoutes => None
    case Nothing => Some(Object("", [], []))
    case Http(hosts, rules) => Some(Object(GetVirtualServiceName(tc, env), hosts, rules))
  }

  // A disabled config's virtual service is deleted; any other is created or updated.
  ghost predicate Written(before: map<string, Object>, after: map<string, Object>, o: Object, disabled: bool) {
    && (disabled ==> o.name !in after)
    && (!disabled ==> o.name in after && after[o.name] == o)
    && (forall n :: n != o.name ==> (n in after <==> n in before) && (n in after ==> after[n] == before[n]))
  }

  class Fleet {
    var servers: Servers

    method CreateUpdateDelete(c: string, o: Object, disabled: bool)
      requires c in servers
      modifies this
      ensures servers.Keys == old(servers).Keys && forall d <- servers :: d != c ==> servers[d] == old(servers)[d]
      ensures Written(old(servers)[c], servers[c], o, disabled)
    {
      var server := servers[c];
      if disabled {
        servers := servers[c := server - {o.name}];
        return;
      }
      servers := servers[c := server[o.name := o]];
    }

    // Every order in which the clusters may be gone through gives this.
    method HandleForMeshDependents(tc: TrafficConfig, e: Event, dependents: seq<string>, scope: Scope,
                                   m: WorkloadHandlers.ClusterIndex)
      returns (vs: Option<Object>, ghost blocks: seq<seq<HTTPRoute>>)
      modifies this
      ensures vs.Some? <==>
        e.env != "" && (exists c :: Meant(dependents, e, scope, m, c))
        && (tc.edgeService.Some? ==> tc.edgeService.value.routes != [])
      ensures vs.Some? && tc.edgeService.None? ==> vs.value == Object("", [], [])
      ensures vs.Some? && tc.edgeService.Some? ==>
        NameFits(vs.value.name, tc, e.env)
        && NoRepeats(vs.value.hosts) && Compiled(vs.value.rules, tc, tc.edgeService.value, blocks)
        && Elements(vs.value.hosts) == set env <- tc.workloadEnv :: HostOf(tc, env)
      ensures vs.None? ==> servers == old(servers)
      ensures servers.Keys == old(servers).Keys
      ensures vs.Some? ==> forall c <- servers ::
        if Meant(dependents, e, scope, m, c) && c in scope.inScope then Written(old(servers)[c], servers[c], vs.value, e.disabled)
        else servers[c] == old(servers)[c]
    {
      forall c ensures c in DependentClusters(dependents, e, scope, m) <==> Meant(dependents, e, scope, m, c) {
        WhyACluster(dependents, e, scope, m, c);
      }
      hide Meant, DependentClusters;
      VirtualServiceNameFits(tc, e.env);
      vs, blocks := None, [];
      if |e.env| == 0 { return; }
      var clusters := CollectClusters(dependents, e, scope, m);
      if |clusters| == 0 { return; }
      assert exists c :: c in clusters;
      var built;
      built, blocks := BuildVirtualServiceForMeshDependents(tc);
      vs := ObjectFor(tc, e.env, built);
      if vs.None? { return; }
      Distribute(clusters, vs.value, e.disabled, scope);
    }

    method Distribute(clusters: set<string>, o: Object, disabled: bool, scope: Scope)
      modifies this
      ensures servers.Keys == old(servers).Keys
      ensures forall c <- servers ::
        if c in clusters && c in scope.inScope then Written(old(servers)[c], servers[c], o, disabled)
        else servers[c] == old(servers)[c]
    {
      hide Written;
      var order := InSomeOrder(clusters);
      for i := 0 to |order|
        invariant servers.Keys == old(servers).Keys
        invariant forall c <- servers ::
          if c in order[..i] && c in scope.inScope then Written(old(servers)[c], servers[c], o, disabled)
          else servers[c] == old(servers)[c]
      {
        var c := order[i];
        assert order[..i + 1] == order[..i] + [c];
        assert c !in order[..i];
        if c in scope.inScope && c in servers {
          CreateUpdateDelete(c, o, disabled);
        }
      }
      assert forall c :: c in order[..|order|] <==> c in Elements(order);
    }
  }

  method CollectClusters(dependents: seq<string>, e: Event, scope: Scope, m: WorkloadHandlers.ClusterIndex)
    returns (clusters: set<string>)
    ensures clusters == DependentClusters(dependents, e, scope, m)
  {
    clusters := {};
    for i := 0 to |dependents|
      invariant clusters == DependentClusters(dependents[..i], e, scope, m)
    {
      assert dependents[..i + 1][..i] == dependents[..i];
      var d := dependents[i];
      if d in scope.ignored { continue; }
      if |e.sourceIdentity| > 0 && e.sourceIdentity != d { continue; }
      clusters := clusters + ClustersOf(m, d);
    }
    assert dependents[..|dependents|] == dependents;
  }
}
