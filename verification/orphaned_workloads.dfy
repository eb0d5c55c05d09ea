// Cached workloads in clusters fan-out no longer reaches: exactly when a history
// of events leaves some.
module OrphanedWorkloads {
  import opened Wrappers
  import opened Text
  import opened WorkloadIndex
  import opened WorkloadHandlers

  ghost predicate Cached(s: World, identity: string, c: string) {
    HasAny(s.deployments, c, identity) || HasAny(s.rollouts, c, identity)
  }

  // The event adds the cluster for the identity.
  predicate Indexes(e: WorkloadEvent, identity: string, c: string) {
    !e.DeletedEvent? && Accepted(e.w) && RunsAt(e.clusterID, e.w, identity, c)
  }

  // The event drops the cluster for the identity: a delete, or an update that
  // moves a workload to another one.
  predicate Unindexes(e: WorkloadEvent, identity: string, c: string) {
    Accepted(e.w)
    && match e
       case AddedEvent(_, _, _) => false
       case UpdatedEvent(_, clusterID, w, was) =>
         IdentityChanged(w, was) && RunsAt(clusterID, was, identity, c) && !RunsAt(clusterID, w, identity, c)
       case DeletedEvent(_, clusterID, w) => RunsAt(clusterID, w, identity, c)
  }

  lemma IndexClusterAt(m: ClusterIndex, clusterID: string, w: Workload, identity: string, c: string)
    ensures Indexed(IndexCluster(m, GetWorkloadIdentifier(w), clusterID), identity, c)
       <==> RunsAt(clusterID, w, identity, c) || Indexed(m, identity, c)
  {
  }

  lemma UnindexClusterAt(m: ClusterIndex, clusterID: string, w: Workload, identity: string, c: string)
    ensures Indexed(UnindexCluster(m, GetWorkloadIdentifier(w), clusterID), identity, c)
       <==> Indexed(m, identity, c) && !RunsAt(clusterID, w, identity, c)
  {
  }

  lemma IndexedAfter(s: World, e: WorkloadEvent, identity: string, c: string)
    ensures Indexed(Next(s, e).clusters, identity, c)
       <==> Indexes(e, identity, c) || (Indexed(s.clusters, identity, c) && !Unindexes(e, identity, c))
  {
    IndexClusterAt(s.clusters, e.clusterID, e.w, identity, c);
    match e {
      case AddedEvent(_, _, _) =>
      case DeletedEvent(_, clusterID, w) => UnindexClusterAt(s.clusters, clusterID, w, identity, c);
      case UpdatedEvent(_, clusterID, w, was) =>
        UnindexClusterAt(s.clusters, clusterID, was, identity, c);
        IndexClusterAt(UnindexCluster(s.clusters, GetWorkloadIdentifier(was), clusterID), clusterID, w, identity, c);
    }
  }

  lemma DropAny(x: Index, clusterID: string, w: Workload, identity: string, c: string)
    ensures HasAny(CacheDelete(x, clusterID, w), c, identity) ==> HasAny(x, c, identity)
  {
    DeleteAny(x, clusterID, w, c, identity);
  }

  // Only an event that indexes brings a first workload.
  lemma NothingNew(s: World, e: WorkloadEvent, identity: string, c: string)
    requires !Indexes(e, identity, c)
    ensures Cached(Next(s, e), identity, c) ==> Cached(s, identity, c)
  {
    var x := CacheOf(s, e.kind);
    match e {
      case AddedEvent(_, clusterID, w) => if Accepted(w) { AddElsewhere(x, clusterID, w, c, identity); }
      case DeletedEvent(_, clusterID, w) => DropAny(x, clusterID, w, identity, c);
      case UpdatedEvent(_, clusterID, w, was) =>
        if Accepted(w) {
          DropAny(x, clusterID, was, identity, c);
          AddElsewhere(x, clusterID, w, c, identity);
          AddElsewhere(CacheDelete(x, clusterID, was), clusterID, w, c, identity);
        }
    }
  }

  // Event i dropped the cluster, left a workload there, and nothing has added
  // the cluster since.
  ghost predicate OrphanedAt(history: seq<WorkloadEvent>, identity: string, c: string, i: nat) {
    i < |history| && Unindexes(history[i], identity, c) && Cached(After(history[..i + 1]), identity, c)
    && forall j :: i < j < |history| ==> !Indexes(history[j], identity, c)
  }

  ghost predicate Orphaned(history: seq<WorkloadEvent>, identity: string, c: string) {
    exists i: nat :: OrphanedAt(history, identity, c, i)
  }

  lemma OrphanedAtEarlier(before: seq<WorkloadEvent>, e: WorkloadEvent, identity: string, c: string, i: nat)
    requires i < |before|
    ensures OrphanedAt(before + [e], identity, c, i) <==> OrphanedAt(before, identity, c, i) && !Indexes(e, identity, c)
  {
    var history := before + [e];
    assert history[..i + 1] == before[..i + 1];
    assert history[|before|] == e;
    assert forall j :: 0 <= j < |before| ==> history[j] == before[j];
  }

  lemma OrphanedNow(before: seq<WorkloadEvent>, e: WorkloadEvent, identity: string, c: string)
    ensures OrphanedAt(before + [e], identity, c, |before|)
       <==> Unindexes(e, identity, c) && Cached(After(before + [e]), identity, c)
  {
    assert (before + [e])[..|before| + 1] == before + [e];
  }

  lemma UnindexesOnly(e: WorkloadEvent, identity: string, c: string)
    ensures Unindexes(e, identity, c) ==> !Indexes(e, identity, c)
  {
  }

  // Some event before the last has left an orphan, or the last one has.
  ghost predicate OrphanedOrNow(before: seq<WorkloadEvent>, e: WorkloadEvent, identity: string, c: string) {
    (Orphaned(before, identity, c) && !Indexes(e, identity, c)) || OrphanedAt(before + [e], identity, c, |before|)
  }

  lemma OrphanedMore(before: seq<WorkloadEvent>, e: WorkloadEvent, identity: string, c: string)
    ensures Orphaned(before + [e], identity, c) <==> OrphanedOrNow(before, e, identity, c)
  {
    hide Indexes;
    if Orphaned(before + [e], identity, c) {
      var i: nat :| OrphanedAt(before + [e], identity, c, i);
      assert i <= |before|;
      hide OrphanedAt;
      if i < |before| { OrphanedAtEarlier(before, e, identity, c, i); }
    }
    if Orphaned(before, identity, c) {
      var i: nat :| OrphanedAt(before, identity, c, i);
      assert i < |before|;
      hide OrphanedAt;
      OrphanedAtEarlier(before, e, identity, c, i);
    }
  }

  lemma {:induction false} IndexTellsOrphans(history: seq<WorkloadEvent>, identity: string, c: string)
    ensures Indexed(After(history).clusters, identity, c) ==> !Orphaned(history, identity, c)
    ensures Cached(After(history), identity, c) && !Indexed(After(history).clusters, identity, c)
            ==> Orphaned(history, identity, c)
    decreases |history|
  {
    if history != [] {
      var before, e := history[..|history| - 1], history[|history| - 1];
      assert history == before + [e];
      IndexTellsOrphans(before, identity, c);
      OrphanedMore(before, e, identity, c);
      OrphanedNow(before, e, identity, c);
      UnindexesOnly(e, identity, c);
      IndexedAfter(After(before), e, identity, c);
      if !Indexes(e, identity, c) { NothingNew(After(before), e, identity, c); }
    }
  }

  // After every history, the cluster of a cached workload is indexed if and only
  // if no event has dropped it and left a workload there since it was last added.
  lemma CachedIsIndexedIffNotOrphaned(history: seq<WorkloadEvent>, identity: string, c: string)
    requires Cached(After(history), identity, c)
    ensures Indexed(After(history).clusters, identity, c) <==> !Orphaned(history, identity, c)
  {
    IndexTellsOrphans(history, identity, c);
  }

  // ---------- instances ----------

  function Running(identity: string, env: string): Workload {
    Workload("app", identity, "", env, "", "", false, true)
  }

  function AddedTo(env: string): WorkloadEvent { AddedEvent(DeploymentKind, "c", Running("a", env)) }

  const DELETED_ONE := [AddedTo("qa"), AddedTo("e2e"), DeletedEvent(DeploymentKind, "c", Running("a", "e2e"))]

  const MOVED_ONE := [AddedTo("qa"), AddedTo("e2e"), UpdatedEvent(DeploymentKind, "c", Running("b", "e2e"), Running("a", "e2e"))]

  lemma LowerAlready()
    ensures ToLower("a") == "a" && ToLower("b") == "b" && ToLower("c") == "c"
    ensures ToLower("qa") == "qa" && ToLower("e2e") == "e2e"
  {
    LowerFixed("a");
    LowerFixed("b");
    LowerFixed("c");
    LowerFixed("qa");
    LowerFixed("e2e");
  }

  lemma AddedAt(s: World, env: string, k: Key)
    requires ToLower("a") == "a" && ToLower("c") == "c" && ToLower(env) == env && env != ""
    ensures Get(Next(s, AddedTo(env)).deployments, k)
         == if k == Key("c", "a", env) then Some(Item(Running("a", env), "c")) else Get(s.deployments, k)
  {
    PutAt(s.deployments, "c", "a", env, Item(Running("a", env), "c"), k);
  }

  lemma AfterTwo(s: World)
    requires s == Next(Next(World(map[], map[], map[]), AddedTo("qa")), AddedTo("e2e"))
    ensures Has(s.deployments, Key("c", "a", "qa"))
  {
    LowerAlready();
    var none := World(map[], map[], map[]);
    AddedAt(none, "qa", Key("c", "a", "qa"));
    AddedAt(Next(none, AddedTo("qa")), "e2e", Key("c", "a", "qa"));
  }

  lemma ThreeEvents(a: WorkloadEvent, b: WorkloadEvent, e: WorkloadEvent)
    ensures After([a, b, e]) == Next(Next(Next(World(map[], map[], map[]), a), b), e)
  {
    var h := [a, b, e];
    assert h[..2] == [a, b] && h[..2][..1] == [a] && h[..1][..0] == [];
    assert After([a]) == Next(After([]), a) by { assert [a][..0] == []; }
    assert After([a, b]) == Next(After([a]), b) by { assert [a, b][..1] == [a]; }
  }

  // The environment first added is still cached when the other one has gone.
  lemma QaStays(s: World, e: WorkloadEvent)
    requires e == DELETED_ONE[2] || e == MOVED_ONE[2]
    requires Has(s.deployments, Key("c", "a", "qa"))
    ensures Unindexes(e, "a", "c") && Cached(Next(s, e), "a", "c")
  {
    LowerAlready();
    assert "qa"[0] != "e2e"[0];
    assert HasAny(s.deployments, "c", "a");
    if e.DeletedEvent? {
      DeleteOrphansTheRest(s, e);
    } else {
      assert "a"[0] != "b"[0];
      MoveOrphansTheRest(s, e);
    }
  }

  // Indexed no more and still cached.
  ghost predicate LeavesOrphan(history: seq<WorkloadEvent>, identity: string, c: string) {
    Orphaned(history, identity, c) && Cached(After(history), identity, c) && !Indexed(After(history).clusters, identity, c)
  }

  lemma ThirdEventOrphans(e: WorkloadEvent)
    requires e == DELETED_ONE[2] || e == MOVED_ONE[2]
    ensures LeavesOrphan([AddedTo("qa"), AddedTo("e2e"), e], "a", "c")
  {
    var h := [AddedTo("qa"), AddedTo("e2e")];
    var s := Next(Next(World(map[], map[], map[]), AddedTo("qa")), AddedTo("e2e"));
    assert h + [e] == [AddedTo("qa"), AddedTo("e2e"), e];
    AfterTwo(s);
    QaStays(s, e);
    ThreeEvents(AddedTo("qa"), AddedTo("e2e"), e);
    OrphanedNow(h, e, "a", "c");
    assert OrphanedAt(h + [e], "a", "c", 2);
    CachedIsIndexedIffNotOrphaned(h + [e], "a", "c");
  }

  // One delete, or one move to another identity, is enough.
  lemma OrphansExist()
    ensures LeavesOrphan(DELETED_ONE, "a", "c") && LeavesOrphan(MOVED_ONE, "a", "c")
  {
    ThirdEventOrphans(DELETED_ONE[2]);
    ThirdEventOrphans(MOVED_ONE[2]);
  }
}
