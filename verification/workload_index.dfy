// cluster -> identity -> env -> item: the shape both workload caches share,
// and the flat map it stands for.
module WorkloadIndex {
  import opened Wrappers
  import opened Text

  // The parts of a Deployment or Rollout that the caches and handlers read.
  datatype Workload = Workload(name: string, identityLabel: string, identityAnnotation: string,
                               envLabel: string, envAnnotation: string, namespace: string,
                               ignored: bool, meshEnabled: bool)

  predicate FirstNonEmpty(candidates: seq<string>, r: string) {
    exists i :: 0 <= i < |candidates| && candidates[i] == r && r != "" && forall j :: 0 <= j < i ==> candidates[j] == ""
  }

  function GetWorkloadIdentifier(w: Workload): string {
    if w.identityLabel != "" then w.identityLabel else w.identityAnnotation
  }

  // The label, else the annotation; neither need be there.
  lemma WhichIdentity(w: Workload)
    ensures GetWorkloadIdentifier(w) == "" <==> w.identityLabel == "" && w.identityAnnotation == ""
    ensures GetWorkloadIdentifier(w) != "" ==> FirstNonEmpty([w.identityLabel, w.identityAnnotation], GetWorkloadIdentifier(w))
  {
    var candidates := [w.identityLabel, w.identityAnnotation];
    assert candidates[0] == w.identityLabel && candidates[1] == w.identityAnnotation;
  }

  const ENV_DEFAULT := "default"

  // What follows the last '-'.
  function LastPart(s: string): string {
    if s == "" || s[|s| - 1] == '-' then "" else LastPart(s[..|s| - 1]) + [s[|s| - 1]]
  }

  lemma {:induction false} LastPartOf(s: string)
    ensures '-' !in LastPart(s) && |LastPart(s)| <= |s|
    ensures if '-' in s then |LastPart(s)| < |s| && s == s[..|s| - |LastPart(s)| - 1] + "-" + LastPart(s) else LastPart(s) == s
    decreases |s|
  {
    if s != "" {
      LastPartOf(s[..|s| - 1]);
      assert s == s[..|s| - 1] + [s[|s| - 1]];
    }
  }

  // The deprecated way: the end of a namespace with a '-'.
  function EnvOfNamespace(namespace: string): string { if '-' in namespace then LastPart(namespace) else "" }

  function GetEnv(w: Workload): string {
    if w.envLabel != "" then w.envLabel
    else if w.envAnnotation != "" then w.envAnnotation
    else if EnvOfNamespace(w.namespace) != "" then EnvOfNamespace(w.namespace)
    else ENV_DEFAULT
  }

  // The label, else the annotation, else the end of the namespace, else the default.
  lemma WhichEnv(w: Workload) returns (part: string)
    ensures FirstNonEmpty([w.envLabel, w.envAnnotation, part, "default"], GetEnv(w))
    ensures if '-' in w.namespace then '-' !in part && exists head :: w.namespace == head + "-" + part else part == ""
  {
    part := EnvOfNamespace(w.namespace);
    LastPartOf(w.namespace);
    var candidates := [w.envLabel, w.envAnnotation, part, "default"];
    assert candidates[0] == w.envLabel && candidates[1] == w.envAnnotation && candidates[2] == part;
    assert candidates[3] == "default";
  }

  datatype Item = Item(workload: Workload, clusterID: string)
  datatype Entry = Entry(identity: string, items: map<string, Item>)
  type Identities = map<string, Entry>
  type Index = map<string, Identities>

  datatype Key = Key(cluster: string, identity: string, env: string)
  type FlatMap = map<Key, Item>

  // ---------- one cluster's inner map ----------

  function PutIdentity(m: Identities, id: string, env: string, item: Item): Identities {
    if id !in m then m[id := Entry(id, map[env := item])]
    else m[id := m[id].(items := m[id].items[env := item])]
  }

  function DropIdentity(m: Identities, id: string, env: string): Identities {
    if id !in m then m
    else
      var items := m[id].items - {env};
      if items == map[] then m - {id} else m[id := m[id].(items := items)]
  }

  predicate InnerOk(m: Identities, c: string) {
    forall id <- m :: m[id].identity == id && m[id].items != map[]
                      && forall env <- m[id].items :: m[id].items[env].clusterID == c
  }

  // ---------- the whole index ----------

  function Put(x: Index, c: string, id: string, env: string, item: Item): Index {
    if c !in x then x[c := map[id := Entry(id, map[env := item])]]
    else x[c := PutIdentity(x[c], id, env, item)]
  }

  function Drop(x: Index, c: string, id: string, env: string): Index {
    if c !in x || id !in x[c] then x
    else
      var inner := DropIdentity(x[c], id, env);
      if inner == map[] then x - {c} else x[c := inner]
  }

  predicate WellFormed(x: Index) {
    forall c <- x :: x[c] != map[] && InnerOk(x[c], c)
  }

  predicate HasIn(m: Identities, id: string, env: string) { id in m && env in m[id].items }

  predicate Has(x: Index, k: Key) { k.cluster in x && HasIn(x[k.cluster], k.identity, k.env) }

  function At(x: Index, k: Key): Item
    requires Has(x, k)
  {
    x[k.cluster][k.identity].items[k.env]
  }

  function Keys(x: Index): set<Key> {
    set c <- x, id <- x[c], env <- x[c][id].items :: Key(c, id, env)
  }

  function Flat(x: Index): FlatMap {
    map k | k in Keys(x) :: At(x, k)
  }

  lemma KeysAreHas(x: Index)
    ensures forall k :: k in Keys(x) <==> Has(x, k)
  {
    forall k ensures k in Keys(x) <==> Has(x, k) {
      if Has(x, k) { assert k == Key(k.cluster, k.identity, k.env); }
    }
  }

  function Get(x: Index, k: Key): Option<Item> { if Has(x, k) then Some(At(x, k)) else None }

  function GetIn(m: Identities, id: string, env: string): Option<Item> {
    if HasIn(m, id, env) then Some(m[id].items[env]) else None
  }

  function GetFlat(f: FlatMap, k: Key): Option<Item> { if k in f then Some(f[k]) else None }

  // A lookup in the nested maps is a lookup in the flat map.
  lemma GetRefines(x: Index, k: Key)
    ensures Get(x, k) == GetFlat(Flat(x), k)
  {
    KeysAreHas(x);
  }

  function GetEntry(x: Index, c: string, id: string): Option<Entry> {
    if c in x && id in x[c] then Some(x[c][id]) else None
  }

  // The entry of an identity in one cluster is what the flat map holds there.
  lemma EntryRefines(x: Index, c: string, id: string)
    requires c in x ==> InnerOk(x[c], c)
    ensures match GetEntry(x, c, id)
            case None => forall env :: Key(c, id, env) !in Flat(x)
            case Some(e) =>
              e.identity == id && e.items != map[]
              && forall env :: (env in e.items <==> Key(c, id, env) in Flat(x))
                               && (env in e.items ==> e.items[env] == Flat(x)[Key(c, id, env)])
  {
    KeysAreHas(x);
  }

  lemma FlatExt(x: Index, f: FlatMap)
    requires forall k :: Get(x, k) == GetFlat(f, k)
    ensures Flat(x) == f
  {
    KeysAreHas(x);
    forall k ensures k in Flat(x) <==> k in f { assert Get(x, k) == GetFlat(f, k); }
    forall k | k in f ensures Flat(x)[k] == f[k] { assert Get(x, k) == GetFlat(f, k); }
  }

  lemma PutIdentityAt(m: Identities, id: string, env: string, item: Item, i: string, e: string)
    ensures GetIn(PutIdentity(m, id, env, item), i, e) == if i == id && e == env then Some(item) else GetIn(m, i, e)
  {
  }

  lemma DropIdentityAt(m: Identities, id: string, env: string, i: string, e: string)
    ensures GetIn(DropIdentity(m, id, env), i, e) == if i == id && e == env then None else GetIn(m, i, e)
  {
    if id in m && i == id && e in m[id].items && e != env {
      assert e in m[id].items - {env};
    }
  }

  lemma PutInnerOk(m: Identities, c: string, id: string, env: string, item: Item)
    requires InnerOk(m, c) && item.clusterID == c
    ensures InnerOk(PutIdentity(m, id, env, item), c) && PutIdentity(m, id, env, item) != map[]
  {
    var p := PutIdentity(m, id, env, item);
    assert id in p && env in p[id].items;
  }

  lemma DropInnerOk(m: Identities, c: string, id: string, env: string)
    requires InnerOk(m, c)
    ensures InnerOk(DropIdentity(m, id, env), c)
  {
    forall i <- DropIdentity(m, id, env) ensures i in m {}
  }

  lemma PutAt(x: Index, c: string, id: string, env: string, item: Item, k: Key)
    ensures Get(Put(x, c, id, env, item), k) == if k == Key(c, id, env) then Some(item) else Get(x, k)
  {
    if c in x { PutIdentityAt(x[c], id, env, item, k.identity, k.env); }
  }

  lemma DropAt(x: Index, c: string, id: string, env: string, k: Key)
    ensures Get(Drop(x, c, id, env), k) == if k == Key(c, id, env) then None else Get(x, k)
  {
    if c in x { DropIdentityAt(x[c], id, env, k.identity, k.env); }
  }

  lemma PutWellFormed(x: Index, c: string, id: string, env: string, item: Item)
    requires WellFormed(x) && item.clusterID == c
    ensures WellFormed(Put(x, c, id, env, item))
  {
    var m: Identities := if c in x then x[c] else map[];
    PutInnerOk(m, c, id, env, item);
    assert Put(x, c, id, env, item) == x[c := PutIdentity(m, id, env, item)];
  }

  lemma DropWellFormed(x: Index, c: string, id: string, env: string)
    requires WellFormed(x)
    ensures WellFormed(Drop(x, c, id, env))
  {
    if c in x {
      DropInnerOk(x[c], c, id, env);
      hide InnerOk, DropIdentity;
    }
  }

  lemma PutFlat(x: Index, c: string, id: string, env: string, item: Item)
    ensures Flat(Put(x, c, id, env, item)) == Flat(x)[Key(c, id, env) := item]
  {
    var y, f := Put(x, c, id, env, item), Flat(x)[Key(c, id, env) := item];
    forall k ensures Get(y, k) == GetFlat(f, k) {
      GetRefines(x, k);
      PutAt(x, c, id, env, item, k);
    }
    FlatExt(y, f);
  }

  // Adding to the nested maps is adding to the flat map.
  lemma PutRefines(x: Index, c: string, id: string, env: string, item: Item)
    requires WellFormed(x) && item.clusterID == c
    ensures WellFormed(Put(x, c, id, env, item))
    ensures Flat(Put(x, c, id, env, item)) == Flat(x)[Key(c, id, env) := item]
  {
    PutWellFormed(x, c, id, env, item);
    PutFlat(x, c, id, env, item);
  }

  // Deleting without unhooking an emptied cluster.
  lemma DropInnerFlat(x: Index, c: string, id: string, env: string)
    requires c in x
    ensures Flat(x[c := DropIdentity(x[c], id, env)]) == Flat(x) - {Key(c, id, env)}
  {
    var y, f := x[c := DropIdentity(x[c], id, env)], Flat(x) - {Key(c, id, env)};
    forall k ensures Get(y, k) == GetFlat(f, k) {
      GetRefines(x, k);
      DropIdentityAt(x[c], id, env, k.identity, k.env);
    }
    FlatExt(y, f);
  }

  lemma UnhookEmptyFlat(x: Index, c: string)
    requires c in x && x[c] == map[]
    ensures Flat(x - {c}) == Flat(x)
  {
    forall k ensures Get(x - {c}, k) == GetFlat(Flat(x), k) { GetRefines(x, k); }
    FlatExt(x - {c}, Flat(x));
  }

  // Deleting with pruning is deleting from the flat map.
  lemma DropRefines(x: Index, c: string, id: string, env: string)
    requires WellFormed(x)
    ensures WellFormed(Drop(x, c, id, env))
    ensures Flat(Drop(x, c, id, env)) == Flat(x) - {Key(c, id, env)}
  {
    DropWellFormed(x, c, id, env);
    var y, f := Drop(x, c, id, env), Flat(x) - {Key(c, id, env)};
    forall k ensures Get(y, k) == GetFlat(f, k) {
      GetRefines(x, k);
      DropAt(x, c, id, env, k);
    }
    FlatExt(y, f);
  }

  // ---------- events on the flat map ----------

  function KeyOf(clusterID: string, w: Workload): Key {
    Key(ToLower(clusterID), ToLower(GetWorkloadIdentifier(w)), ToLower(GetEnv(w)))
  }

  // What Add and Delete of either cache do to the nested maps.
  function CacheAdd(x: Index, clusterID: string, w: Workload): Index {
    var k := KeyOf(clusterID, w);
    if k.identity == "" || k.env == "" then x
    else Put(x, k.cluster, k.identity, k.env, Item(w, k.cluster))
  }

  function CacheDelete(x: Index, clusterID: string, w: Workload): Index {
    var k := KeyOf(clusterID, w);
    Drop(x, k.cluster, k.identity, k.env)
  }

  datatype CacheEvent = AddEvent(clusterID: string, w: Workload) | DeleteEvent(clusterID: string, w: Workload)

  function FlatStep(f: FlatMap, e: CacheEvent): FlatMap {
    match e
    case AddEvent(c, w) =>
      var k := KeyOf(c, w);
      if k.identity == "" || k.env == "" then f else f[k := Item(w, k.cluster)]
    case DeleteEvent(c, w) => f - {KeyOf(c, w)}
  }

  // ---------- the last word on a key ----------

  // A workload of the cluster belongs under the key.
  predicate Concerns(clusterID: string, w: Workload, k: Key) {
    && ToLower(clusterID) == k.cluster && ToLower(GetWorkloadIdentifier(w)) == k.identity && ToLower(GetEnv(w)) == k.env
  }

  // Event j added a workload under the key, and no later event is about the key.
  predicate LastAdd(history: seq<CacheEvent>, k: Key, j: nat) {
    && j < |history| && history[j].AddEvent? && Concerns(history[j].clusterID, history[j].w, k) && k.identity != ""
    && forall i :: j < i < |history| ==> !Concerns(history[i].clusterID, history[i].w, k)
  }

  function FlatRun(history: seq<CacheEvent>): FlatMap {
    if history == [] then map[] else FlatStep(FlatRun(history[..|history| - 1]), history[|history| - 1])
  }

  lemma LastAddMore(before: seq<CacheEvent>, e: CacheEvent, k: Key, j: nat)
    ensures Concerns(e.clusterID, e.w, k) ==>
      (LastAdd(before + [e], k, j) <==> j == |before| && e.AddEvent? && k.identity != "")
    ensures !Concerns(e.clusterID, e.w, k) ==> (LastAdd(before + [e], k, j) <==> LastAdd(before, k, j))
    ensures LastAdd(before, k, j) ==> j < |before| && (before + [e])[j] == before[j]
  {
    hide Concerns;
    var history := before + [e];
    assert history[|before|] == e && forall i :: 0 <= i < |before| ==> history[i] == before[i];
  }

  lemma FlatStepAt(f: FlatMap, e: CacheEvent, k: Key)
    ensures GetFlat(FlatStep(f, e), k)
         == if !Concerns(e.clusterID, e.w, k) || (e.AddEvent? && k.identity == "") then GetFlat(f, k)
            else if e.AddEvent? then Some(Item(e.w, k.cluster)) else None
    ensures k.identity == "" ==> (k in FlatStep(f, e) ==> k in f)
  {
    var part := WhichEnv(e.w);
  }

  // The flat map holds exactly what was added last.
  lemma {:induction false} FlatHoldsLastAdd(history: seq<CacheEvent>, k: Key)
    ensures k in FlatRun(history) ==> k.identity != "" && exists j: nat :: LastAdd(history, k, j)
    ensures forall j: nat :: LastAdd(history, k, j) ==>
      k in FlatRun(history) && FlatRun(history)[k] == Item(history[j].w, k.cluster)
    decreases |history|
  {
    hide LastAdd, FlatStep, Concerns;
    if history != [] {
      var n := |history| - 1;
      var before, e := history[..n], history[n];
      assert history == before + [e];
      FlatHoldsLastAdd(before, k);
      FlatStepAt(FlatRun(before), e, k);
      forall j: nat
        ensures LastAdd(history, k, j) <==>
          if Concerns(e.clusterID, e.w, k) then j == n && e.AddEvent? && k.identity != "" else LastAdd(before, k, j)
      {
        LastAddMore(before, e, k, j);
      }
      forall j: nat ensures LastAdd(before, k, j) ==> j < n && history[j] == before[j] { LastAddMore(before, e, k, j); }
      assert Concerns(e.clusterID, e.w, k) && e.AddEvent? && k.identity != "" ==> LastAdd(history, k, n);
    } else {
      NoLastAdd(k);
    }
  }

  lemma NoLastAdd(k: Key)
    ensures forall j: nat :: !LastAdd([], k, j)
  {
  }

  // ---------- reading ----------

  function EntryKeys(c: string, id: string, envs: set<string>): set<Key> {
    set env <- envs :: Key(c, id, env)
  }

  lemma {:induction false} EntryKeysSize(c: string, id: string, envs: set<string>)
    ensures |EntryKeys(c, id, envs)| == |envs|
  {
    if envs != {} {
      var e :| e in envs;
      EntryKeysSize(c, id, envs - {e});
      assert EntryKeys(c, id, envs) == EntryKeys(c, id, envs - {e}) + {Key(c, id, e)};
    }
  }

  // The keys of some clusters, and of some identities of one cluster.
  function KeysOf(x: Index, clusters: set<string>): set<Key>
    requires clusters <= x.Keys
  {
    set k <- Keys(x) | k.cluster in clusters
  }

  function KeysIn(x: Index, c: string, ids: set<string>): set<Key> {
    set k <- Keys(x) | k.cluster == c && k.identity in ids
  }

  lemma KeysInStep(x: Index, c: string, ids: set<string>, id: string)
    requires c in x && id in x[c] && id !in ids
    ensures KeysIn(x, c, ids + {id}) == KeysIn(x, c, ids) + EntryKeys(c, id, x[c][id].items.Keys)
    ensures KeysIn(x, c, ids) !! EntryKeys(c, id, x[c][id].items.Keys)
    ensures |KeysIn(x, c, ids + {id})| == |KeysIn(x, c, ids)| + |x[c][id].items|
  {
    KeysAreHas(x);
    var envs := x[c][id].items.Keys;
    var added := EntryKeys(c, id, envs);
    EntryKeysSize(c, id, envs);
    forall k ensures k in KeysIn(x, c, ids + {id}) <==> k in KeysIn(x, c, ids) || k in added {
      if k in added { assert Has(x, k); }
      if k.cluster == c && k.identity == id && k in Keys(x) { assert k.env in envs; assert k == Key(c, id, k.env); }
    }
    assert KeysIn(x, c, ids + {id}) == KeysIn(x, c, ids) + added;
  }

  lemma KeysOfStep(x: Index, clusters: set<string>, c: string)
    requires clusters <= x.Keys && c in x && c !in clusters
    ensures KeysOf(x, clusters + {c}) == KeysOf(x, clusters) + KeysIn(x, c, x[c].Keys)
    ensures KeysOf(x, clusters) !! KeysIn(x, c, x[c].Keys)
    ensures |KeysOf(x, clusters + {c})| == |KeysOf(x, clusters)| + |KeysIn(x, c, x[c].Keys)|
  {
    KeysAreHas(x);
    assert KeysOf(x, clusters + {c}) == KeysOf(x, clusters) + KeysIn(x, c, x[c].Keys);
  }

  lemma AllKeys(x: Index)
    ensures KeysOf(x, x.Keys) == Flat(x).Keys && KeysOf(x, {}) == {}
  {
    KeysAreHas(x);
  }

  // Sums the sizes of the innermost maps, whatever order the maps are walked in.
  method Count(x: Index) returns (count: nat)
    ensures count == |Flat(x)|
  {
    AllKeys(x);
    hide KeysOf, KeysIn, Flat;
    count := 0;
    var todo := x.Keys;
    ghost var done: set<string> := {};
    while todo != {}
      invariant todo <= x.Keys && done == x.Keys - todo
      invariant count == |KeysOf(x, done)|
      decreases |todo|
    {
      var c :| c in todo;
      var n := CountCluster(x, c);
      KeysOfStep(x, done, c);
      count := count + n;
      todo := todo - {c};
      done := done + {c};
    }
    assert done == x.Keys;
    assert |Flat(x)| == |Flat(x).Keys|;
  }

  method CountCluster(x: Index, c: string) returns (count: nat)
    requires c in x
    ensures count == |KeysIn(x, c, x[c].Keys)|
  {
    count := 0;
    var todo := x[c].Keys;
    ghost var done: set<string> := {};
    while todo != {}
      invariant todo <= x[c].Keys && done == x[c].Keys - todo
      invariant count == |KeysIn(x, c, done)|
      decreases |todo|
    {
      var id :| id in todo;
      KeysInStep(x, c, done, id);
      count := count + |x[c][id].items|;
      todo := todo - {id};
      done := done + {id};
    }
    assert done == x[c].Keys;
  }

  // items[i] is stored under keys[i]; keys lists the wanted keys once each.
  predicate Enumerates(items: seq<Item>, keys: seq<Key>, x: Index, wanted: set<Key>) {
    |items| == |keys|
    && (forall i :: 0 <= i < |keys| ==> Has(x, keys[i]) && At(x, keys[i]) == items[i])
    && (forall i, j :: 0 <= i < j < |keys| ==> keys[i] != keys[j])
    && (set k <- keys) == wanted
  }

  lemma EnumeratesSnoc(items: seq<Item>, keys: seq<Key>, x: Index, wanted: set<Key>, k: Key)
    requires Enumerates(items, keys, x, wanted) && Has(x, k) && k !in wanted
    ensures Enumerates(items + [At(x, k)], keys + [k], x, wanted + {k})
  {
    assert forall i :: 0 <= i < |keys| ==> keys[i] in wanted;
    var keys' := keys + [k];
    assert forall j <- keys' :: j in keys || j == k;
    assert forall j <- keys :: j in keys';
    assert keys'[|keys|] == k;
  }

  // The list holds what is stored under the wanted keys, each once, in some order.
  ghost predicate ListsAll(list: seq<Item>, x: Index, wanted: set<Key>) {
    exists keys: seq<Key> :: Enumerates(list, keys, x, wanted)
  }

  // The keys of one identity, in some clusters.
  function IdentityKeys(x: Index, id: string, clusters: set<string>): set<Key> {
    set k <- Keys(x) | k.identity == id && k.cluster in clusters
  }

  lemma IdentityKeysStep(x: Index, id: string, clusters: set<string>, c: string)
    requires c in x
    ensures IdentityKeys(x, id, clusters + {c})
         == IdentityKeys(x, id, clusters) + if id in x[c] then EntryKeys(c, id, x[c][id].items.Keys) else {}
    ensures c !in clusters ==> forall k <- IdentityKeys(x, id, clusters) :: k.cluster != c
  {
    KeysAreHas(x);
    forall k: Key ensures k in IdentityKeys(x, id, clusters + {c}) <==>
      k in IdentityKeys(x, id, clusters) || (id in x[c] && k in EntryKeys(c, id, x[c][id].items.Keys))
    {
      assert k == Key(k.cluster, k.identity, k.env);
    }
  }

  // Appends what one cluster holds of the identity.
  method ListEntry(x: Index, c: string, id: string, list: seq<Item>, ghost keys: seq<Key>, ghost wanted: set<Key>)
    returns (more: seq<Item>, ghost moreKeys: seq<Key>)
    requires c in x && id in x[c] && Enumerates(list, keys, x, wanted) && forall k <- wanted :: k.cluster != c
    ensures Enumerates(more, moreKeys, x, wanted + EntryKeys(c, id, x[c][id].items.Keys))
  {
    more, moreKeys := list, keys;
    var envs := x[c][id].items.Keys;
    while envs != {}
      invariant envs <= x[c][id].items.Keys
      invariant Enumerates(more, moreKeys, x, wanted + EntryKeys(c, id, x[c][id].items.Keys - envs))
      decreases |envs|
    {
      var env :| env in envs;
      ghost var k, listed := Key(c, id, env), x[c][id].items.Keys - envs;
      EnumeratesSnoc(more, moreKeys, x, wanted + EntryKeys(c, id, listed), k);
      assert EntryKeys(c, id, listed) + {k} == EntryKeys(c, id, listed + {env});
      assert x[c][id].items.Keys - (envs - {env}) == listed + {env};
      assert wanted + EntryKeys(c, id, listed) + {k} == wanted + EntryKeys(c, id, listed + {env});
      more, moreKeys := more + [x[c][id].items[env]], moreKeys + [k];
      envs := envs - {env};
    }
    assert x[c][id].items.Keys - envs == x[c][id].items.Keys;
  }

  lemma AllIdentityKeys(x: Index, id: string)
    ensures (set k <- Flat(x) | k.identity == id) == IdentityKeys(x, id, x.Keys)
    ensures IdentityKeys(x, id, {}) == {} && Enumerates([], [], x, {})
  {
    KeysAreHas(x);
  }

  method ListByIdentity(x: Index, id: string) returns (list: seq<Item>)
    ensures ListsAll(list, x, set k <- Flat(x) | k.identity == id)
  {
    hide Enumerates, IdentityKeys, EntryKeys, Flat;
    AllIdentityKeys(x, id);
    list := [];
    ghost var keys: seq<Key> := [];
    var todo := x.Keys;
    ghost var done: set<string> := {};
    while todo != {}
      invariant todo <= x.Keys && done == x.Keys - todo
      invariant Enumerates(list, keys, x, IdentityKeys(x, id, done))
      decreases |todo|
    {
      var c :| c in todo;
      IdentityKeysStep(x, id, done, c);
      if id in x[c] {
        list, keys := ListEntry(x, c, id, list, keys, IdentityKeys(x, id, done));
      } else {
        assert IdentityKeys(x, id, done) + {} == IdentityKeys(x, id, done);
      }
      todo := todo - {c};
      done := done + {c};
    }
    assert done == x.Keys;
  }
}
