// internal/cache/cluster_deployments_cache.go: nested maps under one lock.
module DeploymentsCache {
  import opened Wrappers
  import opened Text
  import opened WorkloadIndex

  class Deployments {
    var depcache: Index

    constructor ()
      ensures depcache == map[]
    {
      depcache := map[];
    }

    method Add(clusterID: string, w: Workload)
      modifies this
      ensures depcache == CacheAdd(old(depcache), clusterID, w)
    {
      var c := ToLower(clusterID);
      var identity := ToLower(GetWorkloadIdentifier(w));
      var env := ToLower(GetEnv(w));
      if identity == "" || env == "" { return; }
      if c !in depcache {
        depcache := depcache[c := map[identity := Entry(identity, map[env := Item(w, c)])]];
        return;
      }
      if identity !in depcache[c] {
        depcache := depcache[c := depcache[c][identity := Entry(identity, map[env := Item(w, c)])]];
        return;
      }
      var entry := depcache[c][identity];
      depcache := depcache[c := depcache[c][identity := entry.(items := entry.items[env := Item(w, c)])]];
    }

    method Delete(clusterID: string, w: Workload)
      modifies this
      ensures depcache == CacheDelete(old(depcache), clusterID, w)
    {
      var c := ToLower(clusterID);
      var identity := ToLower(GetWorkloadIdentifier(w));
      var env := ToLower(GetEnv(w));
      if c !in depcache { return; }
      if identity !in depcache[c] { return; }
      var items := depcache[c][identity].items - {env};
      var inner := depcache[c][identity := depcache[c][identity].(items := items)];
      if |items| == 0 { inner := depcache[c] - {identity}; }
      depcache := if |inner| == 0 then depcache - {c} else depcache[c := inner];
    }

    method GetByClusterIdentityEnv(clusterID: string, identity: string, env: string) returns (w: Option<Workload>)
      ensures w == match GetFlat(Flat(depcache), Key(ToLower(clusterID), ToLower(identity), ToLower(env)))
                   case None => None
                   case Some(item) => Some(item.workload)
    {
      var c, i, e := ToLower(clusterID), ToLower(identity), ToLower(env);
      GetRefines(depcache, Key(c, i, e));
      if c !in depcache { return None; }
      if i !in depcache[c] { return None; }
      if e !in depcache[c][i].items { return None; }
      return Some(depcache[c][i].items[e].workload);
    }

    // The entry holds exactly the flat map's envs for that cluster and identity.
    method GetByClusterIdentity(clusterID: string, identity: string) returns (entry: Option<Entry>)
      requires WellFormed(depcache)
      ensures entry.None? <==> forall env :: Key(ToLower(clusterID), ToLower(identity), env) !in Flat(depcache)
      ensures entry.Some? ==> entry.value.identity == ToLower(identity)
      ensures entry.Some? ==> forall env :: var k := Key(ToLower(clusterID), ToLower(identity), env);
                (env in entry.value.items <==> k in Flat(depcache))
                && (env in entry.value.items ==> entry.value.items[env] == Flat(depcache)[k])
    {
      var c, i := ToLower(clusterID), ToLower(identity);
      EntryRefines(depcache, c, i);
      if c !in depcache { return None; }
      if i !in depcache[c] { return None; }
      return Some(depcache[c][i]);
    }

    method GetByIdentity(identity: string) returns (list: seq<Item>)
      ensures ListsAll(list, depcache, set k <- Flat(depcache) | k.identity == ToLower(identity))
    {
      list := ListByIdentity(depcache, ToLower(identity));
    }

    method GetNoOfDeployments() returns (count: nat)
      ensures count == |Flat(depcache)|
    {
      count := Count(depcache);
    }
  }

  // ---------- every history ----------

  function Step(x: Index, e: CacheEvent): Index {
    match e
    case AddEvent(c, w) => CacheAdd(x, c, w)
    case DeleteEvent(c, w) => CacheDelete(x, c, w)
  }

  function Run(history: seq<CacheEvent>): Index {
    if history == [] then map[] else Step(Run(history[..|history| - 1]), history[|history| - 1])
  }

  lemma StepRefines(x: Index, e: CacheEvent)
    requires WellFormed(x)
    ensures WellFormed(Step(x, e)) && Flat(Step(x, e)) == FlatStep(Flat(x), e)
  {
    var k := KeyOf(e.clusterID, e.w);
    match e {
      case AddEvent(c, w) => PutRefines(x, k.cluster, k.identity, k.env, Item(w, k.cluster));
      case DeleteEvent(c, w) => DropRefines(x, k.cluster, k.identity, k.env);
    }
  }

  // After any history the nested maps are pruned, stored identities and
  // clusters equal their keys, and the flattened cache is the flat map.
  lemma {:induction false} HistoryRefines(history: seq<CacheEvent>)
    ensures WellFormed(Run(history)) && Flat(Run(history)) == FlatRun(history)
    decreases |history|
  {
    if history == [] {
      assert Flat(map[]) == map[];
    } else {
      HistoryRefines(history[..|history| - 1]);
      StepRefines(Run(history[..|history| - 1]), history[|history| - 1]);
    }
  }

  // What is cached under a key is what was added under it last, unless a later
  // event is about that key.
  lemma LastEventDecides(history: seq<CacheEvent>, k: Key)
    ensures k in Flat(Run(history)) ==> exists j: nat :: LastAdd(history, k, j)
    ensures forall j: nat :: LastAdd(history, k, j) ==>
      k in Flat(Run(history)) && Flat(Run(history))[k] == Item(history[j].w, k.cluster)
  {
    hide Flat, LastAdd;
    HistoryRefines(history);
    FlatHoldsLastAdd(history, k);
  }
}
