// internal/cache/cluster_rollouts_cache.go, one caller at a time: the inner map
// of a cluster is a mutable object that Delete may still hold after it was
// unhooked.
module RolloutsStore {
  import opened Wrappers
  import opened Text
  import opened WorkloadIndex

  // CacheDelete in the steps in which Delete does it.
  lemma CacheDeleteAt(x: Index, clusterID: string, w: Workload)
    ensures var k := KeyOf(clusterID, w);
            if k.cluster !in x || k.identity !in x[k.cluster] then CacheDelete(x, clusterID, w) == x
            else
              var inner := DropIdentity(x[k.cluster], k.identity, k.env);
              CacheDelete(x, clusterID, w) == if inner == map[] then x[k.cluster := inner] - {k.cluster} else x[k.cluster := inner]
  {
    var k := KeyOf(clusterID, w);
    if k.cluster in x {
      var inner := DropIdentity(x[k.cluster], k.identity, k.env);
      assert x - {k.cluster} == x[k.cluster := inner] - {k.cluster};
    }
  }

  class InnerMap {
    var entries: Identities

    constructor (initial: Identities)
      ensures entries == initial
    {
      entries := initial;
    }
  }

  class Rollouts {
    var rolloutcache: map<string, InnerMap>

    // No two clusters share an inner map.
    ghost predicate Valid()
      reads this
    {
      forall c, d :: c in rolloutcache && d in rolloutcache && rolloutcache[c] == rolloutcache[d] ==> c == d
    }

    ghost function View(): Index
      reads this, rolloutcache.Values
    {
      map c | c in rolloutcache :: rolloutcache[c].entries
    }

    constructor ()
      ensures Valid() && View() == map[] && rolloutcache == map[]
    {
      rolloutcache := map[];
    }

    method Add(clusterID: string, w: Workload)
      requires Valid()
      modifies this, rolloutcache.Values
      ensures Valid() && View() == CacheAdd(old(View()), clusterID, w)
      ensures fresh(rolloutcache.Values - old(rolloutcache.Values))
    {
      var k := KeyOf(clusterID, w);
      var item := Item(w, k.cluster);
      if k.identity == "" || k.env == "" { return; }
      if k.cluster !in rolloutcache {
        var inner := new InnerMap(map[k.identity := Entry(k.identity, map[k.env := item])]);
        rolloutcache := rolloutcache[k.cluster := inner];
        return;
      }
      PutEntry(k, item);
    }

    method PutEntry(k: Key, item: Item)
      requires Valid() && k.cluster in rolloutcache
      modifies rolloutcache[k.cluster]
      ensures View() == old(View())[k.cluster := PutIdentity(old(View())[k.cluster], k.identity, k.env, item)]
    {
      ghost var x := View();
      var inner := rolloutcache[k.cluster];
      PutIn(inner, k, item);
      assert forall c <- rolloutcache :: c != k.cluster ==> rolloutcache[c] != inner && rolloutcache[c].entries == x[c];
    }

    static method PutIn(inner: InnerMap, k: Key, item: Item)
      modifies inner
      ensures inner.entries == PutIdentity(old(inner.entries), k.identity, k.env, item)
    {
      if k.identity !in inner.entries {
        inner.entries := inner.entries[k.identity := Entry(k.identity, map[k.env := item])];
        return;
      }
      var entry := inner.entries[k.identity];
      inner.entries := inner.entries[k.identity := entry.(items := entry.items[k.env := item])];
    }

    // The read Delete makes before it has the lock.
    method Load(clusterID: string) returns (inner: InnerMap?)
      ensures inner == if ToLower(clusterID) in rolloutcache then rolloutcache[ToLower(clusterID)] else null
    {
      if ToLower(clusterID) !in rolloutcache { return null; }
      return rolloutcache[ToLower(clusterID)];
    }

    predicate Hooked(inner: InnerMap)
      reads this
    {
      exists c <- rolloutcache :: rolloutcache[c] == inner
    }

    // The rest of Delete, under the lock. The inner map is still the cluster's,
    // or it is an unhooked one: then it is empty and nothing happens, even if
    // the cluster has been given a new inner map.
    method DeleteLocked(clusterID: string, w: Workload, inner: InnerMap)
      requires Valid()
      requires (ToLower(clusterID) in rolloutcache && rolloutcache[ToLower(clusterID)] == inner)
               || (!Hooked(inner) && inner.entries == map[])
      modifies this, inner
      ensures Valid() && forall c <- rolloutcache :: c in old(rolloutcache) && rolloutcache[c] == old(rolloutcache[c])
      ensures old(Hooked(inner)) ==> View() == CacheDelete(old(View()), clusterID, w)
      ensures !old(Hooked(inner)) ==> View() == old(View()) && rolloutcache == old(rolloutcache)
      ensures !Hooked(inner) ==> inner.entries == map[]
    {
      var k := KeyOf(clusterID, w);
      ghost var x := View();
      CacheDeleteAt(x, clusterID, w);
      if k.identity !in inner.entries { return; }
      DropEntry(inner, k);
      assert inner.entries == View()[k.cluster];
      if |inner.entries| == 0 { Unhook(k.cluster); }
    }

    method DropEntry(inner: InnerMap, k: Key)
      requires Valid()
      requires k.cluster in rolloutcache && rolloutcache[k.cluster] == inner && k.identity in inner.entries
      modifies inner
      ensures View() == old(View())[k.cluster := DropIdentity(old(View())[k.cluster], k.identity, k.env)]
    {
      ghost var x := View();
      DropIn(inner, k);
      assert forall c <- rolloutcache :: c != k.cluster ==> rolloutcache[c] != inner && rolloutcache[c].entries == x[c];
    }

    static method DropIn(inner: InnerMap, k: Key)
      requires k.identity in inner.entries
      modifies inner
      ensures inner.entries == DropIdentity(old(inner.entries), k.identity, k.env)
    {
      ghost var before := inner.entries;
      var entry := inner.entries[k.identity];
      var items := entry.items - {k.env};
      inner.entries := inner.entries[k.identity := entry.(items := items)];
      assert before - {k.identity} == inner.entries - {k.identity};
      if |items| == 0 { inner.entries := inner.entries - {k.identity}; }
    }

    method Unhook(c: string)
      requires Valid()
      modifies this
      ensures Valid() && rolloutcache == old(rolloutcache) - {c} && View() == old(View()) - {c}
    {
      rolloutcache := rolloutcache - {c};
    }

    method Delete(clusterID: string, w: Workload)
      requires Valid()
      modifies this, rolloutcache.Values
      ensures Valid() && View() == CacheDelete(old(View()), clusterID, w)
      ensures fresh(rolloutcache.Values - old(rolloutcache.Values))
    {
      var inner := Load(clusterID);
      if inner == null { return; }
      DeleteLocked(clusterID, w, inner);
    }

    // ---------- reading ----------

    method GetByClusterIdentityEnv(clusterID: string, identity: string, env: string) returns (w: Option<Workload>)
      ensures w == match GetFlat(Flat(View()), Key(ToLower(clusterID), ToLower(identity), ToLower(env)))
                   case None => None
                   case Some(item) => Some(item.workload)
    {
      var c, i, e := ToLower(clusterID), ToLower(identity), ToLower(env);
      GetRefines(View(), Key(c, i, e));
      if c !in rolloutcache { return None; }
      var inner := rolloutcache[c];
      if i !in inner.entries { return None; }
      var entry := inner.entries[i];
      if e !in entry.items { return None; }
      return Some(entry.items[e].workload);
    }

    // The entry holds exactly the flat map's envs for that cluster and identity.
    method GetByClusterIdentity(clusterID: string, identity: string) returns (entry: Option<Entry>)
      requires WellFormed(View())
      ensures entry.None? <==> forall env :: Key(ToLower(clusterID), ToLower(identity), env) !in Flat(View())
      ensures entry.Some? ==> entry.value.identity == ToLower(identity)
      ensures entry.Some? ==> forall env :: var k := Key(ToLower(clusterID), ToLower(identity), env);
                (env in entry.value.items <==> k in Flat(View()))
                && (env in entry.value.items ==> entry.value.items[env] == Flat(View())[k])
    {
      var c, i := ToLower(clusterID), ToLower(identity);
      EntryRefines(View(), c, i);
      if c !in rolloutcache { return None; }
      var inner := rolloutcache[c];
      if i !in inner.entries { return None; }
      return Some(inner.entries[i]);
    }

    method Snapshot() returns (x: Index)
      ensures x == View()
    {
      x := map c | c in rolloutcache :: rolloutcache[c].entries;
    }

    method GetByIdentity(identity: string) returns (list: seq<Item>)
      ensures ListsAll(list, View(), set k <- Flat(View()) | k.identity == ToLower(identity))
    {
      var x := Snapshot();
      list := ListByIdentity(x, ToLower(identity));
    }

    method GetNoOfRollouts() returns (count: nat)
      ensures count == |Flat(View())|
    {
      var x := Snapshot();
      count := Count(x);
    }
  }
}
