// Deployment and rollout events: each updates the identity-to-clusters index
// that fan-out uses, and the workload cache of its kind.
module WorkloadHandlers {
  import opened Wrappers
  import opened Text
  import opened WorkloadIndex
  import opened DeploymentsCache
  import opened RolloutsStore

  type ClusterIndex = map<string, set<string>>

  function IndexCluster(m: ClusterIndex, identity: string, clusterID: string): ClusterIndex {
    var i, c := ToLower(identity), ToLower(clusterID);
    m[i := (if i in m then m[i] else {}) + {c}]
  }

  function UnindexCluster(m: ClusterIndex, identity: string, clusterID: string): ClusterIndex {
    var i, c := ToLower(identity), ToLower(clusterID);
    if i in m then m[i := m[i] - {c}] else m
  }

  class IdentityClusters {
    var clusters: ClusterIndex

    constructor ()
      ensures clusters == map[]
    {
      clusters := map[];
    }

    method AddClusterToIdentity(identity: string, clusterID: string)
      modifies this
      ensures clusters == IndexCluster(old(clusters), identity, clusterID)
    {
      var i, c := ToLower(identity), ToLower(clusterID);
      if i in clusters {
        clusters := clusters[i := clusters[i] + {c}];
      } else {
        clusters := clusters[i := {c}];
        assert {} + {c} == {c};
      }
    }

    // The set stays, even when it is left empty.
    method DeleteClusterFromIdentity(identity: string, clusterID: string)
      modifies this
      ensures clusters == UnindexCluster(old(clusters), identity, clusterID)
    {
      var i, c := ToLower(identity), ToLower(clusterID);
      if i !in clusters { return; }
      clusters := clusters[i := clusters[i] - {c}];
    }
  }

  // ---------- what one event does ----------

  // The cluster index with the cache of one kind.
  datatype Caches = Caches(clusters: ClusterIndex, workloads: Index)

  predicate Accepted(w: Workload) { !w.ignored && w.meshEnabled && GetWorkloadIdentifier(w) != "" }

  function OnAdded(x: Caches, clusterID: string, w: Workload): Caches {
    if !Accepted(w) then x
    else Caches(IndexCluster(x.clusters, GetWorkloadIdentifier(w), clusterID), CacheAdd(x.workloads, clusterID, w))
  }

  predicate IdentityChanged(w: Workload, was: Workload) {
    GetWorkloadIdentifier(was) != "" && GetWorkloadIdentifier(w) != GetWorkloadIdentifier(was)
  }

  function OnUpdated(x: Caches, clusterID: string, w: Workload, was: Workload): Caches {
    if !Accepted(w) then x
    else if IdentityChanged(w, was) then
      OnAdded(Caches(UnindexCluster(x.clusters, GetWorkloadIdentifier(was), clusterID),
                     CacheDelete(x.workloads, clusterID, was)), clusterID, w)
    else OnAdded(x, clusterID, w)
  }

  function OnDeleted(x: Caches, clusterID: string, w: Workload): Caches {
    if !Accepted(w) then x
    else Caches(UnindexCluster(x.clusters, GetWorkloadIdentifier(w), clusterID), CacheDelete(x.workloads, clusterID, w))
  }

  class DeploymentHandler {
    const clusterID: string
    const clusters: IdentityClusters
    const deployments: Deployments

    constructor (clusterID: string, clusters: IdentityClusters, deployments: Deployments)
      ensures this.clusterID == clusterID && this.clusters == clusters && this.deployments == deployments
    {
      this.clusterID, this.clusters, this.deployments := clusterID, clusters, deployments;
    }

    method Added(w: Workload)
      modifies clusters, deployments
      ensures Caches(clusters.clusters, deployments.depcache)
           == OnAdded(old(Caches(clusters.clusters, deployments.depcache)), clusterID, w)
    {
      if w.ignored || !w.meshEnabled { return; }
      var identity := GetWorkloadIdentifier(w);
      if |identity| == 0 { return; }
      clusters.AddClusterToIdentity(identity, clusterID);
      deployments.Add(clusterID, w);
    }

    method Updated(w: Workload, was: Workload)
      modifies clusters, deployments
      ensures Caches(clusters.clusters, deployments.depcache)
           == OnUpdated(old(Caches(clusters.clusters, deployments.depcache)), clusterID, w, was)
    {
      hide IndexCluster, UnindexCluster, CacheAdd, CacheDelete;
      if w.ignored || !w.meshEnabled { return; }
      var identity, oldIdentity := GetWorkloadIdentifier(w), GetWorkloadIdentifier(was);
      if |identity| == 0 { return; }
      if |oldIdentity| > 0 && identity != oldIdentity {
        clusters.DeleteClusterFromIdentity(oldIdentity, clusterID);
        deployments.Delete(clusterID, was);
      }
      clusters.AddClusterToIdentity(identity, clusterID);
      deployments.Add(clusterID, w);
    }

    method Deleted(w: Workload)
      modifies clusters, deployments
      ensures Caches(clusters.clusters, deployments.depcache)
           == OnDeleted(old(Caches(clusters.clusters, deployments.depcache)), clusterID, w)
    {
      if w.ignored || !w.meshEnabled { return; }
      var identity := GetWorkloadIdentifier(w);
      if |identity| == 0 { return; }
      deployments.Delete(clusterID, w);
      clusters.DeleteClusterFromIdentity(identity, clusterID);
    }
  }

  class RolloutHandler {
    const clusterID: string
    const clusters: IdentityClusters
    const rollouts: Rollouts

    constructor (clusterID: string, clusters: IdentityClusters, rollouts: Rollouts)
      ensures this.clusterID == clusterID && this.clusters == clusters && this.rollouts == rollouts
    {
      this.clusterID, this.clusters, this.rollouts := clusterID, clusters, rollouts;
    }

    method Added(w: Workload)
      requires rollouts.Valid()
      modifies clusters, rollouts, rollouts.rolloutcache.Values
      ensures rollouts.Valid()
      ensures Caches(clusters.clusters, rollouts.View())
           == OnAdded(old(Caches(clusters.clusters, rollouts.View())), clusterID, w)
    {
      if w.ignored || !w.meshEnabled { return; }
      var identity := GetWorkloadIdentifier(w);
      if |identity| == 0 { return; }
      clusters.AddClusterToIdentity(identity, clusterID);
      rollouts.Add(clusterID, w);
    }

    method Updated(w: Workload, was: Workload)
      requires rollouts.Valid()
      modifies clusters, rollouts, rollouts.rolloutcache.Values
      ensures rollouts.Valid()
      ensures Caches(clusters.clusters, rollouts.View())
           == OnUpdated(old(Caches(clusters.clusters, rollouts.View())), clusterID, w, was)
    {
      hide IndexCluster, UnindexCluster, CacheAdd, CacheDelete, Rollouts.View, Rollouts.Valid;
      if w.ignored || !w.meshEnabled { return; }
      var identity, oldIdentity := GetWorkloadIdentifier(w), GetWorkloadIdentifier(was);
      if |identity| == 0 { return; }
      if |oldIdentity| > 0 && identity != oldIdentity {
        clusters.DeleteClusterFromIdentity(oldIdentity, clusterID);
        rollouts.Delete(clusterID, was);
      }
      clusters.AddClusterToIdentity(identity, clusterID);
      rollouts.Add(clusterID, w);
    }

    method Deleted(w: Workload)
      requires rollouts.Valid()
      modifies clusters, rollouts, rollouts.rolloutcache.Values
      ensures rollouts.Valid()
      ensures Caches(clusters.clusters, rollouts.View())
           == OnDeleted(old(Caches(clusters.clusters, rollouts.View())), clusterID, w)
    {
      if w.ignored || !w.meshEnabled { return; }
      var identity := GetWorkloadIdentifier(w);
      if |identity| == 0 { return; }
      rollouts.Delete(clusterID, w);
      clusters.DeleteClusterFromIdentity(identity, clusterID);
    }
  }

  // ---------- the effects, at every identity, cluster and key ----------

  predicate Indexed(m: ClusterIndex, identity: string, c: string) { identity in m && c in m[identity] }

  // Only mesh-enabled workloads with an identity, and not to be ignored, are looked at.
  predicate LookedAt(w: Workload) { !w.ignored && w.meshEnabled && (w.identityLabel != "" || w.identityAnnotation != "") }

  predicate RunsAt(clusterID: string, w: Workload, identity: string, c: string) {
    ToLower(clusterID) == c && ToLower(GetWorkloadIdentifier(w)) == identity
  }

  lemma AddedEffect(x: Caches, clusterID: string, w: Workload, identity: string, c: string, k: Key)
    ensures var y := OnAdded(x, clusterID, w);
            && (Indexed(y.clusters, identity, c)
                <==> Indexed(x.clusters, identity, c) || (LookedAt(w) && RunsAt(clusterID, w, identity, c)))
            && Get(y.workloads, k) == if LookedAt(w) && Concerns(clusterID, w, k) then Some(Item(w, k.cluster)) else Get(x.workloads, k)
  {
    var own := KeyOf(clusterID, w);
    var part := WhichEnv(w);
    WhichIdentity(w);
    PutAt(x.workloads, own.cluster, own.identity, own.env, Item(w, own.cluster), k);
  }

  lemma RemovedEffect(x: Index, clusterID: string, w: Workload, k: Key)
    ensures Get(CacheDelete(x, clusterID, w), k) == if Concerns(clusterID, w, k) then None else Get(x, k)
  {
    var own := KeyOf(clusterID, w);
    DropAt(x, own.cluster, own.identity, own.env, k);
  }

  lemma DeletedEffect(x: Caches, clusterID: string, w: Workload, identity: string, c: string, k: Key)
    ensures var y := OnDeleted(x, clusterID, w);
            && (Indexed(y.clusters, identity, c)
                <==> Indexed(x.clusters, identity, c) && !(LookedAt(w) && RunsAt(clusterID, w, identity, c)))
            && Get(y.workloads, k) == if LookedAt(w) && Concerns(clusterID, w, k) then None else Get(x.workloads, k)
  {
    WhichIdentity(w);
    RemovedEffect(x.workloads, clusterID, w, k);
  }

  // An update under another identity takes the old workload, and the cluster, from
  // the old one first.
  lemma UpdatedEffect(x: Caches, clusterID: string, w: Workload, was: Workload, identity: string, c: string, k: Key)
    ensures var y := OnUpdated(x, clusterID, w, was);
            var moved := LookedAt(w) && GetWorkloadIdentifier(was) != "" && GetWorkloadIdentifier(was) != GetWorkloadIdentifier(w);
            && (Indexed(y.clusters, identity, c)
                <==> (LookedAt(w) && RunsAt(clusterID, w, identity, c))
                     || (Indexed(x.clusters, identity, c) && !(moved && RunsAt(clusterID, was, identity, c))))
            && Get(y.workloads, k)
               == if LookedAt(w) && Concerns(clusterID, w, k) then Some(Item(w, k.cluster))
                  else if moved && Concerns(clusterID, was, k) then None
                  else Get(x.workloads, k)
  {
    hide Get, Concerns;
    WhichIdentity(w);
    AddedEffect(x, clusterID, w, identity, c, k);
    RemovedEffect(x.workloads, clusterID, was, k);
    var y := Caches(UnindexCluster(x.clusters, GetWorkloadIdentifier(was), clusterID), CacheDelete(x.workloads, clusterID, was));
    AddedEffect(y, clusterID, w, identity, c, k);
  }

  // ---------- every history of events of both kinds ----------

  datatype Kind = DeploymentKind | RolloutKind

  datatype WorkloadEvent =
    | AddedEvent(kind: Kind, clusterID: string, w: Workload)
    | UpdatedEvent(kind: Kind, clusterID: string, w: Workload, was: Workload)
    | DeletedEvent(kind: Kind, clusterID: string, w: Workload)

  datatype World = World(clusters: ClusterIndex, deployments: Index, rollouts: Index)

  function CacheOf(s: World, kind: Kind): Index {
    if kind.DeploymentKind? then s.deployments else s.rollouts
  }

  function OtherCache(s: World, kind: Kind): Index {
    if kind.DeploymentKind? then s.rollouts else s.deployments
  }

  function Handled(x: Caches, e: WorkloadEvent): Caches {
    match e
    case AddedEvent(_, c, w) => OnAdded(x, c, w)
    case UpdatedEvent(_, c, w, was) => OnUpdated(x, c, w, was)
    case DeletedEvent(_, c, w) => OnDeleted(x, c, w)
  }

  function Next(s: World, e: WorkloadEvent): World {
    var x := Handled(Caches(s.clusters, CacheOf(s, e.kind)), e);
    if e.kind.DeploymentKind? then World(x.clusters, x.workloads, s.rollouts)
    else World(x.clusters, s.deployments, x.workloads)
  }

  function After(history: seq<WorkloadEvent>): World {
    if history == [] then World(map[], map[], map[])
    else Next(After(history[..|history| - 1]), history[|history| - 1])
  }

  ghost predicate HasAny(x: Index, c: string, identity: string) { exists env :: Has(x, Key(c, identity, env)) }

  // Wherever fan-out would go for an identity, a workload of it is cached.
  ghost predicate Backed(clusters: ClusterIndex, x: Index, y: Index) {
    forall identity, c :: Indexed(clusters, identity, c) ==> HasAny(x, c, identity) || HasAny(y, c, identity)
  }

  lemma AddKeepsAny(x: Index, clusterID: string, w: Workload, c: string, identity: string)
    ensures HasAny(x, c, identity) ==> HasAny(CacheAdd(x, clusterID, w), c, identity)
    ensures GetWorkloadIdentifier(w) != "" && c == ToLower(clusterID) && identity == ToLower(GetWorkloadIdentifier(w))
            ==> HasAny(CacheAdd(x, clusterID, w), c, identity)
  {
    var k := KeyOf(clusterID, w);
    var y := CacheAdd(x, clusterID, w);
    if k.identity != "" && k.env != "" {
      var item := Item(w, k.cluster);
      PutAt(x, k.cluster, k.identity, k.env, item, k);
      assert Has(y, Key(k.cluster, k.identity, k.env));
      if HasAny(x, c, identity) {
        var env :| Has(x, Key(c, identity, env));
        PutAt(x, k.cluster, k.identity, k.env, item, Key(c, identity, env));
        assert Has(y, Key(c, identity, env));
      }
    }
  }

  // Deleting takes one env: the identity keeps a workload there exactly when
  // it had one in another env.
  lemma DeleteAny(x: Index, clusterID: string, w: Workload, c: string, identity: string)
    ensures var k := KeyOf(clusterID, w);
            HasAny(CacheDelete(x, clusterID, w), c, identity)
            <==> exists env :: Has(x, Key(c, identity, env)) && Key(c, identity, env) != k
  {
    var k := KeyOf(clusterID, w);
    var y := CacheDelete(x, clusterID, w);
    forall env ensures Has(y, Key(c, identity, env)) <==> Has(x, Key(c, identity, env)) && Key(c, identity, env) != k {
      DropAt(x, k.cluster, k.identity, k.env, Key(c, identity, env));
    }
  }

  lemma AddedBacked(x: Caches, other: Index, clusterID: string, w: Workload)
    requires Backed(x.clusters, x.workloads, other)
    ensures var y := OnAdded(x, clusterID, w); Backed(y.clusters, y.workloads, other)
  {
    var y := OnAdded(x, clusterID, w);
    if Accepted(w) {
      forall identity, c | Indexed(y.clusters, identity, c)
        ensures HasAny(y.workloads, c, identity) || HasAny(other, c, identity)
      {
        AddKeepsAny(x.workloads, clusterID, w, c, identity);
        assert Indexed(x.clusters, identity, c)
               || (c == ToLower(clusterID) && identity == ToLower(GetWorkloadIdentifier(w)));
      }
    }
  }

  // Removing a workload together with its identity's cluster.
  lemma RemovedBacked(x: Caches, other: Index, clusterID: string, w: Workload)
    requires Backed(x.clusters, x.workloads, other)
    ensures Backed(UnindexCluster(x.clusters, GetWorkloadIdentifier(w), clusterID),
                   CacheDelete(x.workloads, clusterID, w), other)
  {
    var m, y := UnindexCluster(x.clusters, GetWorkloadIdentifier(w), clusterID), CacheDelete(x.workloads, clusterID, w);
    forall identity, c | Indexed(m, identity, c)
      ensures HasAny(y, c, identity) || HasAny(other, c, identity)
    {
      assert Indexed(x.clusters, identity, c);
      DeleteAny(x.workloads, clusterID, w, c, identity);
      if HasAny(x.workloads, c, identity) {
        var env :| Has(x.workloads, Key(c, identity, env));
        assert Key(c, identity, env) != KeyOf(clusterID, w);
      }
    }
  }

  lemma HandledBacked(x: Caches, other: Index, e: WorkloadEvent)
    requires Backed(x.clusters, x.workloads, other)
    ensures Backed(Handled(x, e).clusters, Handled(x, e).workloads, other)
  {
    match e {
      case AddedEvent(_, c, w) => AddedBacked(x, other, c, w);
      case DeletedEvent(_, c, w) => RemovedBacked(x, other, c, w);
      case UpdatedEvent(_, c, w, was) =>
        if Accepted(w) && IdentityChanged(w, was) {
          RemovedBacked(x, other, c, was);
          AddedBacked(Caches(UnindexCluster(x.clusters, GetWorkloadIdentifier(was), c), CacheDelete(x.workloads, c, was)),
                      other, c, w);
        } else {
          AddedBacked(x, other, c, w);
        }
    }
  }

  // After every history a cluster indexed for an identity has a cached
  // deployment or rollout of it.
  lemma {:induction false} FanOutTargetsHaveWorkloads(history: seq<WorkloadEvent>)
    ensures var s := After(history); Backed(s.clusters, s.deployments, s.rollouts)
    decreases |history|
  {
    if history != [] {
      var s, e := After(history[..|history| - 1]), history[|history| - 1];
      FanOutTargetsHaveWorkloads(history[..|history| - 1]);
      assert Backed(s.clusters, CacheOf(s, e.kind), OtherCache(s, e.kind));
      HandledBacked(Caches(s.clusters, CacheOf(s, e.kind)), OtherCache(s, e.kind), e);
    }
  }

  // ---------- events that drop a cluster from the index ----------

  // A delete drops the cluster from the index whatever else is there. A workload
  // is left cached in it exactly when the identity had another env there, or a
  // workload of the other kind.
  lemma DeleteOrphansTheRest(s: World, e: WorkloadEvent)
    requires e.DeletedEvent? && Accepted(e.w)
    ensures var s' := Next(s, e);
            var k := KeyOf(e.clusterID, e.w);
            !Indexed(s'.clusters, k.identity, k.cluster)
            && (HasAny(s'.deployments, k.cluster, k.identity) || HasAny(s'.rollouts, k.cluster, k.identity)
                <==> HasAny(OtherCache(s, e.kind), k.cluster, k.identity)
                     || exists env :: Has(CacheOf(s, e.kind), Key(k.cluster, k.identity, env)) && env != k.env)
  {
    var k := KeyOf(e.clusterID, e.w);
    DeleteAny(CacheOf(s, e.kind), e.clusterID, e.w, k.cluster, k.identity);
    forall env ensures Key(k.cluster, k.identity, env) != k <==> env != k.env { }
  }

  // Adding for one identity leaves another's workloads as they are.
  lemma AddElsewhere(x: Index, clusterID: string, w: Workload, c: string, identity: string)
    requires c != ToLower(clusterID) || identity != ToLower(GetWorkloadIdentifier(w))
    ensures HasAny(CacheAdd(x, clusterID, w), c, identity) <==> HasAny(x, c, identity)
  {
    var k := KeyOf(clusterID, w);
    if k.identity != "" && k.env != "" {
      forall env ensures Has(CacheAdd(x, clusterID, w), Key(c, identity, env)) <==> Has(x, Key(c, identity, env)) {
        PutAt(x, k.cluster, k.identity, k.env, Item(w, k.cluster), Key(c, identity, env));
      }
    }
  }

  // So does an update that moves a workload to another identity, with the old one.
  lemma MoveOrphansTheRest(s: World, e: WorkloadEvent)
    requires e.UpdatedEvent? && Accepted(e.w) && IdentityChanged(e.w, e.was)
    requires ToLower(GetWorkloadIdentifier(e.w)) != ToLower(GetWorkloadIdentifier(e.was))
    ensures var s' := Next(s, e);
            var k := KeyOf(e.clusterID, e.was);
            !Indexed(s'.clusters, k.identity, k.cluster)
            && (HasAny(s'.deployments, k.cluster, k.identity) || HasAny(s'.rollouts, k.cluster, k.identity)
                <==> HasAny(OtherCache(s, e.kind), k.cluster, k.identity)
                     || exists env :: Has(CacheOf(s, e.kind), Key(k.cluster, k.identity, env)) && env != k.env)
  {
    var k := KeyOf(e.clusterID, e.was);
    var x := CacheOf(s, e.kind);
    DeleteAny(x, e.clusterID, e.was, k.cluster, k.identity);
    AddElsewhere(CacheDelete(x, e.clusterID, e.was), e.clusterID, e.w, k.cluster, k.identity);
    forall env ensures Key(k.cluster, k.identity, env) != k <==> env != k.env { }
  }

  // An update leaves the entry under the old key, unless it changed the identity:
  // changing the environment alone leaves it stale.
  lemma UpdateAtOldKey(x: Caches, clusterID: string, w: Workload, was: Workload)
    requires Accepted(w)
    ensures var k, k' := KeyOf(clusterID, was), KeyOf(clusterID, w);
            Get(OnUpdated(x, clusterID, w, was).workloads, k)
            == if k'.env != "" && k' == k then Some(Item(w, k.cluster))
               else if IdentityChanged(w, was) then None
               else Get(x.workloads, k)
  {
    var k, k' := KeyOf(clusterID, was), KeyOf(clusterID, w);
    var before := if IdentityChanged(w, was) then CacheDelete(x.workloads, clusterID, was) else x.workloads;
    DropAt(x.workloads, k.cluster, k.identity, k.env, k);
    PutAt(before, k'.cluster, k'.identity, k'.env, Item(w, k'.cluster), k);
  }
}
