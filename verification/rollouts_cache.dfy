// internal/cache/cluster_rollouts_cache.go under every interleaving.
//
// The inner map of a cluster is an object of its own: Delete takes hold of it
// before it has the lock, so it may be working on a map that was unhooked
// meanwhile. Everything read or written under the lock is a step of its own as
// far as the one unlocked read (of the top-level map) can tell them apart.
module RolloutsCache {
  import opened Wrappers
  import opened Text
  import opened WorkloadIndex

  // ---------- the flat map's operations ----------

  datatype Op =
    | AddOp(clusterID: string, w: Workload)
    | DeleteOp(clusterID: string, w: Workload)
    | GetOp(key: Key)
    | EntryOp(clusterID: string, identity: string)
    | ListOp(identity: string)
    | CountOp

  datatype Result =
    | Done
    | Found(w: Option<Workload>)
    | Held(entry: Option<Entry>)
    | Listed(items: FlatMap)   // in some order
    | Size(size: nat)

  function Apply(f: FlatMap, op: Op): FlatMap {
    match op
    case AddOp(c, w) => FlatStep(f, AddEvent(c, w))
    case DeleteOp(c, w) => FlatStep(f, DeleteEvent(c, w))
    case _ => f
  }

  // The envs and items of one identity in one cluster.
  function ItemsAt(f: FlatMap, c: string, id: string): map<string, Item> {
    map k | k in f && k.cluster == c && k.identity == id :: k.env := f[k]
  }

  function Answer(f: FlatMap, op: Op): Result {
    match op
    case GetOp(k) =>
      var key := Key(ToLower(k.cluster), ToLower(k.identity), ToLower(k.env));
      Found(if key in f then Some(f[key].workload) else None)
    case EntryOp(c, id) =>
      var items := ItemsAt(f, ToLower(c), ToLower(id));
      Held(if items == map[] then None else Some(Entry(ToLower(id), items)))
    case ListOp(id) => Listed(map k | k in f && k.identity == ToLower(id) :: f[k])
    case CountOp => Size(|f|)
    case _ => Done
  }

  // ---------- lookups, map by map ----------

  function FindIn(x: Index, clusterID: string, identity: string, env: string): Option<Workload> {
    var c, i, e := ToLower(clusterID), ToLower(identity), ToLower(env);
    if c !in x then None
    else if i !in x[c] then None
    else if e !in x[c][i].items then None
    else Some(x[c][i].items[e].workload)
  }

  // The items of one identity, cluster by cluster.
  function ListIn(x: Index, identity: string): FlatMap {
    var i := ToLower(identity);
    map c, e | c in x && i in x[c] && e in x[c][i].items :: Key(c, i, e) := x[c][i].items[e]
  }

  // The items of all innermost maps.
  function CountIn(x: Index): nat { |Keys(x)| }

  function Read(x: Index, op: Op): Result
    requires IsRead(op)
  {
    match op
    case GetOp(k) => Found(FindIn(x, k.cluster, k.identity, k.env))
    case EntryOp(c, id) => Held(GetEntry(x, ToLower(c), ToLower(id)))
    case ListOp(id) => Listed(ListIn(x, id))
    case CountOp => Size(CountIn(x))
  }

  lemma ListedIsFlat(x: Index, id: string)
    ensures ListIn(x, id) == map k | k in Flat(x) && k.identity == ToLower(id) :: Flat(x)[k]
  {
    KeysAreHas(x);
    var f := map k | k in Flat(x) && k.identity == ToLower(id) :: Flat(x)[k];
    forall k: Key ensures k in ListIn(x, id) <==> k in f { assert k == Key(k.cluster, k.identity, k.env); }
  }

  lemma HeldIsFlat(x: Index, c: string, id: string)
    requires c in x ==> InnerOk(x[c], c)
    ensures GetEntry(x, c, id) == var items := ItemsAt(Flat(x), c, id); if items == map[] then None else Some(Entry(id, items))
  {
    EntryRefines(x, c, id);
    var items := ItemsAt(Flat(x), c, id);
    forall env ensures env in items <==> Key(c, id, env) in Flat(x) {}
    match GetEntry(x, c, id) {
      case None => assert forall env :: env !in items;
      case Some(e) => assert e.items == items;
    }
  }

  // Walking the nested maps gives the flat map's answer.
  lemma ReadIsAnswer(x: Index, op: Op)
    requires IsRead(op) && forall c <- x :: InnerOk(x[c], c)
    ensures Read(x, op) == Answer(Flat(x), op)
  {
    match op {
      case GetOp(k) => GetRefines(x, Key(ToLower(k.cluster), ToLower(k.identity), ToLower(k.env)));
      case EntryOp(c, id) => HeldIsFlat(x, ToLower(c), ToLower(id));
      case ListOp(id) => ListedIsFlat(x, id);
      case CountOp => assert Flat(x).Keys == Keys(x);
    }
  }

  // One operation taking effect; calls are numbered as they are invoked.
  datatype LogEntry = LogEntry(call: nat, op: Op, result: Result)

  function FlatAfter(log: seq<LogEntry>): FlatMap {
    if log == [] then map[] else Apply(FlatAfter(log[..|log| - 1]), log[|log| - 1].op)
  }

  // Every answer in the log is what the flat map gives at that point.
  predicate Legal(log: seq<LogEntry>) {
    log == [] ||
    var before := log[..|log| - 1];
    Legal(before) && log[|log| - 1].result == Answer(FlatAfter(before), log[|log| - 1].op)
  }

  // ---------- the concurrent cache ----------

  type Ref = nat

  datatype Local =
    | Idle
    // called; nothing read yet
    | Called(call: nat, op: Op, inv: nat)
    // Add, with the lock
    | Adding(call: nat, op: Op, inv: nat)
    // Delete, holding an inner map but not the lock; at tells where it has
    // already taken effect, if it has
    | Loaded(call: nat, op: Op, inv: nat, ref: Ref, at: Option<nat>)
    // Delete, with the lock
    | Deleting(call: nat, op: Op, inv: nat, ref: Ref, at: Option<nat>)
    // Delete, with the lock, item gone, empty inner map not yet unhooked
    | Pruning(call: nat, op: Op, inv: nat, ref: Ref, lin: nat)
    // result known, lock (if any) not yet released
    | Leaving(call: nat, op: Op, inv: nat, lin: nat, result: Result, locked: bool)

  datatype Completed = Completed(call: nat, op: Op, inv: nat, lin: nat, resp: nat, result: Result)

  datatype State = State(
    clusters: map<string, Ref>,   // the sync.Map
    heap: seq<Identities>,        // every inner map ever made
    writer: Option<nat>,          // the thread inside rolloutcacheLock.Lock
    threads: seq<Local>,
    ops: seq<Op>,                 // calls so far
    log: seq<LogEntry>,           // operations in the order they take effect
    done: seq<Completed>)

  function Initial(threads: nat): State {
    State(map[], [], None, seq(threads, _ => Idle), [], [], [])
  }

  function Deref(s: State, c: string): Identities
    requires c in s.clusters
  {
    if s.clusters[c] < |s.heap| then s.heap[s.clusters[c]] else map[]
  }

  // The three-level index the top-level map reaches.
  function View(s: State): Index { map c | c in s.clusters :: Deref(s, c) }

  function ClusterOf(op: Op): string
    requires op.AddOp? || op.DeleteOp?
  {
    ToLower(op.clusterID)
  }

  function SetThread(s: State, t: nat, l: Local): State
    requires t < |s.threads|
  {
    s.(threads := s.threads[t := l])
  }

  function Record(s: State, call: nat, op: Op, result: Result): State {
    s.(log := s.log + [LogEntry(call, op, result)])
  }

  // Threads that loaded the inner map being unhooked take effect here, as
  // deletes of something that is not there.
  function Helped(l: Local, ref: Ref, at: nat): Local {
    if l.Loaded? && l.ref == ref && l.at.None? then Loaded(l.call, l.op, l.inv, l.ref, Some(at)) else l
  }

  function HelpLog(threads: seq<Local>, ref: Ref): seq<LogEntry> {
    if threads == [] then []
    else
      var l := threads[|threads| - 1];
      HelpLog(threads[..|threads| - 1], ref)
      + if l.Loaded? && l.ref == ref && l.at.None? then [LogEntry(l.call, l.op, Done)] else []
  }

  function HelpThreads(threads: seq<Local>, ref: Ref, base: nat): (r: seq<Local>)
    ensures |r| == |threads|
  {
    if threads == [] then []
    else
      HelpThreads(threads[..|threads| - 1], ref, base)
      + [Helped(threads[|threads| - 1], ref, base + |HelpLog(threads[..|threads| - 1], ref)|)]
  }

  // ---------- steps ----------

  datatype Action = Invoke(t: nat, op: Op) | Advance(t: nat) | Return(t: nat)

  predicate IsRead(op: Op) { op.GetOp? || op.EntryOp? || op.ListOp? || op.CountOp? }

  // Identity or env missing: returns before taking the lock.
  predicate Ignored(op: Op)
    requires op.AddOp?
  {
    var k := KeyOf(op.clusterID, op.w);
    k.identity == "" || k.env == ""
  }

  predicate Enabled(s: State, a: Action) {
    a.t < |s.threads|
    && var l := s.threads[a.t];
    match a
    case Invoke(_, _) => l.Idle?
    case Return(_) => l.Leaving?
    case Advance(_) =>
      match l
      case Called(_, op, _) =>
        // Delete loads, and an ignored Add returns, without the lock
        op.DeleteOp? || (op.AddOp? && Ignored(op)) || s.writer == None
      case Loaded(_, _, _, _, _) => s.writer == None
      case Adding(_, _, _) => true
      case Deleting(_, _, _, _, _) => true
      case Pruning(_, _, _, _, _) => true
      case _ => false
  }

  // Under the read lock: nothing changes while it is held.
  function StepRead(s: State, t: nat, l: Local): State
    requires t < |s.threads| && l.Called? && IsRead(l.op)
  {
    var r := Read(View(s), l.op);
    SetThread(Record(s, l.call, l.op, r), t, Leaving(l.call, l.op, l.inv, |s.log|, r, false))
  }

  function StepAddLock(s: State, t: nat, l: Local): State
    requires t < |s.threads| && l.Called? && l.op.AddOp?
  {
    if Ignored(l.op) then
      SetThread(Record(s, l.call, l.op, Done), t, Leaving(l.call, l.op, l.inv, |s.log|, Done, false))
    else SetThread(s.(writer := Some(t)), t, Adding(l.call, l.op, l.inv))
  }

  // Add's effect: in the cluster's inner map, or in a new one hooked up for it.
  function InsertItem(s: State, k: Key, item: Item): State {
    if k.cluster !in s.clusters then
      s.(clusters := s.clusters[k.cluster := |s.heap|],
         heap := s.heap + [map[k.identity := Entry(k.identity, map[k.env := item])]])
    else if s.clusters[k.cluster] < |s.heap| then
      var ref := s.clusters[k.cluster];
      s.(heap := s.heap[ref := PutIdentity(s.heap[ref], k.identity, k.env, item)])
    else s
  }

  function StepAdd(s: State, t: nat, l: Local): State
    requires t < |s.threads| && l.Adding? && l.op.AddOp?
  {
    var k := KeyOf(l.op.clusterID, l.op.w);
    var item := Item(l.op.w, k.cluster);
    var s1 := InsertItem(s, k, item);
    SetThread(Record(s1, l.call, l.op, Done), t, Leaving(l.call, l.op, l.inv, |s.log|, Done, true))
  }

  // Delete's load of the inner map, before the lock.
  function StepLoad(s: State, t: nat, l: Local): State
    requires t < |s.threads| && l.Called? && l.op.DeleteOp?
  {
    if ClusterOf(l.op) !in s.clusters then
      SetThread(Record(s, l.call, l.op, Done), t, Leaving(l.call, l.op, l.inv, |s.log|, Done, false))
    else SetThread(s, t, Loaded(l.call, l.op, l.inv, s.clusters[ClusterOf(l.op)], None))
  }

  function StepDeleteLock(s: State, t: nat, l: Local): State
    requires t < |s.threads| && l.Loaded?
  {
    SetThread(s.(writer := Some(t)), t, Deleting(l.call, l.op, l.inv, l.ref, l.at))
  }

  function DropItem(s: State, ref: Ref, k: Key): State
    requires ref < |s.heap|
  {
    s.(heap := s.heap[ref := DropIdentity(s.heap[ref], k.identity, k.env)])
  }

  function StepDelete(s: State, t: nat, l: Local): State
    requires t < |s.threads| && l.Deleting? && l.op.DeleteOp?
  {
    var k := KeyOf(l.op.clusterID, l.op.w);
    if l.ref >= |s.heap| || k.identity !in s.heap[l.ref] then
      match l.at
      case Some(i) => SetThread(s, t, Leaving(l.call, l.op, l.inv, i, Done, true))
      case None => SetThread(Record(s, l.call, l.op, Done), t, Leaving(l.call, l.op, l.inv, |s.log|, Done, true))
    else
      var s1 := DropItem(s, l.ref, k);
      SetThread(Record(s1, l.call, l.op, Done), t, Pruning(l.call, l.op, l.inv, l.ref, |s.log|))
  }

  function StepPrune(s: State, t: nat, l: Local): State
    requires t < |s.threads| && l.Pruning? && l.op.DeleteOp?
  {
    var leaving := Leaving(l.call, l.op, l.inv, l.lin, Done, true);
    if l.ref < |s.heap| && s.heap[l.ref] == map[] then
      var s1 := s.(clusters := s.clusters - {ClusterOf(l.op)},
                   threads := HelpThreads(s.threads, l.ref, |s.log|),
                   log := s.log + HelpLog(s.threads, l.ref));
      s1.(threads := s1.threads[t := leaving])
    else SetThread(s, t, leaving)
  }

  function StepReturn(s: State, t: nat, l: Local): State
    requires t < |s.threads| && l.Leaving?
  {
    SetThread(s.(writer := if l.locked then None else s.writer,
                 done := s.done + [Completed(l.call, l.op, l.inv, l.lin, |s.log|, l.result)]),
              t, Idle)
  }

  function StepInvoke(s: State, t: nat, op: Op): State
    requires t < |s.threads|
  {
    SetThread(s.(ops := s.ops + [op]), t, Called(|s.ops|, op, |s.log|))
  }

  function Step(s: State, a: Action): State
    requires Enabled(s, a)
  {
    var l := s.threads[a.t];
    match a
    case Invoke(t, op) => StepInvoke(s, t, op)
    case Return(t) => StepReturn(s, t, l)
    case Advance(t) =>
      if l.Called? && IsRead(l.op) then StepRead(s, t, l)
      else if l.Called? && l.op.AddOp? then StepAddLock(s, t, l)
      else if l.Called? && l.op.DeleteOp? then StepLoad(s, t, l)
      else if l.Adding? && l.op.AddOp? then StepAdd(s, t, l)
      else if l.Loaded? then StepDeleteLock(s, t, l)
      else if l.Deleting? && l.op.DeleteOp? then StepDelete(s, t, l)
      else if l.Pruning? && l.op.DeleteOp? then StepPrune(s, t, l)
      else s
  }

  predicate AllEnabled(s: State, actions: seq<Action>)
    decreases |actions|
  {
    actions == [] || (Enabled(s, actions[0]) && AllEnabled(Step(s, actions[0]), actions[1..]))
  }

  function Run(s: State, actions: seq<Action>): State
    requires AllEnabled(s, actions)
    decreases |actions|
  {
    if actions == [] then s else Run(Step(s, actions[0]), actions[1..])
  }

  // ---------- what linearizable means ----------

  // One legal order of the flat map's operations explains everything: each
  // finished call has its place in it, between its invocation and its return,
  // with the answer it gave; no call has two places; and the cache holds what
  // that order leaves.
  ghost predicate Linearizable(s: State) {
    Legal(s.log)
    && (forall i, j :: 0 <= i < j < |s.log| ==> s.log[i].call != s.log[j].call)
    && (forall i :: 0 <= i < |s.log| ==> s.log[i].call < |s.ops| && s.log[i].op == s.ops[s.log[i].call])
    && (forall d <- s.done :: d.inv <= d.lin < d.resp <= |s.log|
                              && s.log[d.lin] == LogEntry(d.call, d.op, d.result))
    && Flat(View(s)) == FlatAfter(s.log)
  }

  // A call that returned before another was invoked comes before it.
  lemma RealTimeOrder(s: State, d: Completed, e: Completed)
    requires Linearizable(s) && d in s.done && e in s.done && d.resp <= e.inv
    ensures d.lin < e.lin
  {
  }

  // ---------- the invariant ----------

  predicate Attached(s: State, ref: Ref) { exists c <- s.clusters :: s.clusters[c] == ref }

  predicate RefsOk(s: State) {
    (forall c <- s.clusters :: s.clusters[c] < |s.heap|)
    && (forall c, d :: c in s.clusters && d in s.clusters && s.clusters[c] == s.clusters[d] ==> c == d)
  }

  // The thread with the lock is about to unhook this map if it is empty.
  predicate BeingPruned(s: State, ref: Ref) {
    s.writer.Some? && s.writer.value < |s.threads|
    && s.threads[s.writer.value].Pruning? && s.threads[s.writer.value].ref == ref
  }

  // A detached inner map is empty; an attached one is not, but for the moment
  // between the last delete in it and its unhooking.
  predicate MapsOk(s: State)
    requires RefsOk(s)
  {
    InnersOk(s) && FilledAttached(s) && EmptyPruned(s)
  }

  predicate InnersOk(s: State)
    requires RefsOk(s)
  {
    forall c <- s.clusters :: InnerOk(s.heap[s.clusters[c]], c)
  }

  predicate FilledAttached(s: State) { forall r: Ref :: r < |s.heap| && s.heap[r] != map[] ==> Attached(s, r) }

  predicate EmptyPruned(s: State)
    requires RefsOk(s)
  {
    forall c <- s.clusters :: s.heap[s.clusters[c]] != map[] || BeingPruned(s, s.clusters[c])
  }

  predicate HoldsLock(l: Local) { l.Adding? || l.Deleting? || l.Pruning? || (l.Leaving? && l.locked) }

  predicate LockOk(s: State) {
    (s.writer.Some? ==> s.writer.value < |s.threads|)
    && (forall t :: 0 <= t < |s.threads| && HoldsLock(s.threads[t]) ==> s.writer == Some(t))
  }

  predicate Unrecorded(s: State, call: nat) { forall e <- s.log :: e.call != call }

  predicate RecordedAt(s: State, l: Local, lin: nat, result: Result)
    requires !l.Idle?
  {
    l.inv <= lin < |s.log| && s.log[lin] == LogEntry(l.call, l.op, result)
  }

  predicate Hooked(s: State, op: Op, ref: Ref)
    requires op.DeleteOp?
  {
    ClusterOf(op) in s.clusters && s.clusters[ClusterOf(op)] == ref
  }

  predicate Unhooked(s: State, ref: Ref) {
    ref < |s.heap| && s.heap[ref] == map[] && !Attached(s, ref)
  }

  predicate LocalOk(s: State, l: Local) {
    l.Idle? ||
    (l.call < |s.ops| && s.ops[l.call] == l.op && l.inv <= |s.log|
     && match l
        case Called(call, _, _) => Unrecorded(s, call)
        case Adding(call, op, _) => op.AddOp? && !Ignored(op) && Unrecorded(s, call)
        case Loaded(_, op, _, ref, at) => op.DeleteOp? && HolderOk(s, l, ref, at)
        case Deleting(_, op, _, ref, at) => op.DeleteOp? && HolderOk(s, l, ref, at)
        case Pruning(_, op, _, ref, lin) => op.DeleteOp? && Hooked(s, op, ref) && RecordedAt(s, l, lin, Done)
        case Leaving(_, _, _, lin, result, _) => RecordedAt(s, l, lin, result))
  }

  // A delete that holds an inner map either still has it hooked up and has not
  // taken effect, or had it unhooked and took effect at that moment.
  predicate HolderOk(s: State, l: Local, ref: Ref, at: Option<nat>)
    requires !l.Idle? && l.op.DeleteOp?
  {
    match at
    case None => Unrecorded(s, l.call) && Hooked(s, l.op, ref)
    case Some(i) => RecordedAt(s, l, i, Done) && Unhooked(s, ref)
  }

  predicate CallsApart(s: State) {
    forall t, u :: 0 <= t < u < |s.threads| && !s.threads[t].Idle? && !s.threads[u].Idle?
                   ==> s.threads[t].call != s.threads[u].call
  }

  ghost predicate Inv(s: State) {
    RefsOk(s) && MapsOk(s) && LockOk(s) && CallsApart(s)
    && ThreadsOk(s) && Linearizable(s)
  }

  predicate ThreadsOk(s: State) { forall t :: 0 <= t < |s.threads| ==> LocalOk(s, s.threads[t]) }

  lemma InitialInv(n: nat)
    ensures Inv(Initial(n))
  {
    assert Keys(View(Initial(n))) == {};
  }

  // ---------- preservation ----------

  lemma LegalSnoc(log: seq<LogEntry>, e: LogEntry)
    requires Legal(log) && e.result == Answer(FlatAfter(log), e.op)
    ensures Legal(log + [e]) && FlatAfter(log + [e]) == Apply(FlatAfter(log), e.op)
  {
    assert (log + [e])[..|log|] == log;
  }

  lemma RecordLinearizes(s: State, s': State, e: LogEntry)
    requires Linearizable(s)
    requires s'.log == s.log + [e] && s'.ops == s.ops && s'.done == s.done
    requires Unrecorded(s, e.call) && e.call < |s.ops| && e.op == s.ops[e.call]
    requires e.result == Answer(FlatAfter(s.log), e.op)
    requires Flat(View(s')) == Apply(FlatAfter(s.log), e.op)
    ensures Linearizable(s')
  {
    LegalSnoc(s.log, e);
    hide Legal, FlatAfter, Flat, View, Answer, Apply, Unrecorded, Linearizable;
    MoreLinearizes(s, s', [e]);
  }

  function CallOf(l: Local): Option<nat> { if l.Idle? then None else Some(l.call) }

  // s' differs from s in thread t, and what is new in the log belongs to t.
  predicate OnlyThread(s: State, s': State, t: nat) {
    |s'.threads| == |s.threads| && t < |s.threads|
    && (forall u :: 0 <= u < |s.threads| && u != t ==> s'.threads[u] == s.threads[u])
    && s.log <= s'.log && s.ops <= s'.ops
    && (forall e <- s'.log[|s.log|..] :: Some(e.call) == CallOf(s.threads[t]))
  }

  lemma UnrecordedKept(s: State, s': State, t: nat, call: nat)
    requires OnlyThread(s, s', t) && Unrecorded(s, call) && CallOf(s.threads[t]) != Some(call)
    ensures Unrecorded(s', call)
  {
    assert s'.log == s.log + s'.log[|s.log|..];
  }

  lemma OthersKept(s: State, s': State, t: nat)
    requires ThreadsOk(s) && CallsApart(s) && OnlyThread(s, s', t)
    requires s'.clusters == s.clusters && s'.heap == s.heap && LocalOk(s', s'.threads[t])
    ensures ThreadsOk(s')
  {
    forall u | 0 <= u < |s.threads| && u != t ensures LocalOk(s', s'.threads[u]) {
      OtherKept(s, s', t, u);
    }
  }

  lemma OtherKept(s: State, s': State, t: nat, u: nat)
    requires ThreadsOk(s) && CallsApart(s) && OnlyThread(s, s', t) && u < |s.threads| && u != t
    requires s'.clusters == s.clusters && s'.heap == s.heap
    ensures LocalOk(s', s'.threads[u])
  {
    var l := s.threads[u];
    assert LocalOk(s, l);
    if !l.Idle? && Unrecorded(s, l.call) {
      UnrecordedKept(s, s', t, l.call);
    }
  }

  // A step that leaves the maps alone.
  lemma QuietStep(s: State, s': State, t: nat)
    requires Inv(s) && OnlyThread(s, s', t)
    requires s'.clusters == s.clusters && s'.heap == s.heap
    requires LocalOk(s', s'.threads[t]) && LockOk(s') && Linearizable(s')
    requires CallOf(s'.threads[t]) == CallOf(s.threads[t]) || s'.threads[t].Idle?
             || s'.threads[t].call == |s.ops|
    requires !s.threads[t].Pruning? && (s.writer != s'.writer ==> s.writer.None? || s.writer == Some(t))
    ensures Inv(s')
  {
    OthersKept(s, s', t);
    QuietCalls(s, s', t);
    QuietMaps(s, s', t);
  }

  lemma QuietCalls(s: State, s': State, t: nat)
    requires CallsApart(s) && ThreadsOk(s) && OnlyThread(s, s', t)
    requires CallOf(s'.threads[t]) == CallOf(s.threads[t]) || s'.threads[t].Idle?
             || s'.threads[t].call == |s.ops|
    ensures CallsApart(s')
  {
    assert forall u :: 0 <= u < |s.threads| ==> LocalOk(s, s.threads[u]);
  }

  lemma QuietMaps(s: State, s': State, t: nat)
    requires RefsOk(s) && MapsOk(s) && OnlyThread(s, s', t)
    requires s'.clusters == s.clusters && s'.heap == s.heap && !s.threads[t].Pruning?
    requires s.writer != s'.writer ==> s.writer.None? || s.writer == Some(t)
    ensures RefsOk(s') && MapsOk(s')
  {
    assert forall r: Ref :: Attached(s', r) == Attached(s, r);
    assert forall r :: BeingPruned(s, r) ==> BeingPruned(s', r);
  }

  lemma SameHistory(s: State, s': State)
    requires Linearizable(s)
    requires s'.log == s.log && s.ops <= s'.ops && s'.done == s.done && View(s') == View(s)
    ensures Linearizable(s')
  {
  }

  lemma QuietHistory(s: State, s': State)
    requires Linearizable(s)
    requires s'.log == s.log && s'.ops == s.ops && s'.done == s.done
    requires s'.clusters == s.clusters && s'.heap == s.heap
    ensures Linearizable(s')
  {
    assert View(s') == View(s);
  }

  // Thread t does not have the lock after a step that leaves the lock free or
  // with whoever had it.
  lemma LockWithout(s: State, s': State, t: nat)
    requires LockOk(s) && t < |s.threads| && |s'.threads| == |s.threads|
    requires forall u :: 0 <= u < |s.threads| && u != t ==> s'.threads[u] == s.threads[u]
    requires !HoldsLock(s'.threads[t])
    requires s'.writer == s.writer || (s.writer == Some(t) && s'.writer == None)
    ensures LockOk(s')
  {
    forall u | 0 <= u < |s'.threads| && HoldsLock(s'.threads[u]) ensures s'.writer == Some(u) {
      assert HoldsLock(s.threads[u]);
    }
  }

  lemma LockTaken(s: State, s': State, t: nat)
    requires LockOk(s) && t < |s.threads| && |s'.threads| == |s.threads|
    requires forall u :: 0 <= u < |s.threads| && u != t ==> s'.threads[u] == s.threads[u]
    requires s'.writer == Some(t) && (s.writer == None || s.writer == Some(t))
    ensures LockOk(s')
  {
    forall u | 0 <= u < |s'.threads| && HoldsLock(s'.threads[u]) ensures s'.writer == Some(u) {
      if u != t { assert HoldsLock(s.threads[u]); }
    }
  }

  lemma InvokeLinearizes(s: State, t: nat, op: Op)
    requires t < |s.threads| && Linearizable(s)
    ensures var s' := StepInvoke(s, t, op); Linearizable(s') && Unrecorded(s', |s.ops|)
  {
    var s' := StepInvoke(s, t, op);
    assert View(s') == View(s);
    SameHistory(s, s');
    forall e <- s.log ensures e.call != |s.ops| {
      var i :| 0 <= i < |s.log| && s.log[i] == e;
    }
  }

  lemma InvokeKept(s: State, t: nat, op: Op)
    requires Inv(s) && Enabled(s, Invoke(t, op))
    ensures Inv(StepInvoke(s, t, op))
  {
    var s' := StepInvoke(s, t, op);
    InvokeLinearizes(s, t, op);
    LockWithout(s, s', t);
    QuietStep(s, s', t);
  }

  lemma ReturnLinearizes(s: State, t: nat, l: Local)
    requires t < |s.threads| && l.Leaving? && LocalOk(s, l) && Linearizable(s)
    ensures Linearizable(StepReturn(s, t, l))
  {
    var s' := StepReturn(s, t, l);
    assert View(s') == View(s);
    hide Legal, FlatAfter, Flat, View;
    assert RecordedAt(s, l, l.lin, l.result);
  }

  lemma ReturnKept(s: State, t: nat)
    requires Inv(s) && Enabled(s, Return(t))
    ensures Inv(StepReturn(s, t, s.threads[t]))
  {
    var l := s.threads[t];
    var s' := StepReturn(s, t, l);
    ReturnLinearizes(s, t, l);
    assert HoldsLock(l) ==> s.writer == Some(t);
    LockWithout(s, s', t);
    QuietStep(s, s', t);
  }

  // The state after thread t's call takes effect without touching the maps.
  function Answered(s: State, t: nat, l: Local, result: Result, locked: bool): State
    requires t < |s.threads| && (l.Called? || l.Deleting?)
  {
    SetThread(Record(s, l.call, l.op, result), t, Leaving(l.call, l.op, l.inv, |s.log|, result, locked))
  }

  lemma AnsweredLinearizes(s: State, t: nat, l: Local, result: Result, locked: bool)
    requires t < |s.threads| && (l.Called? || l.Deleting?)
    requires Linearizable(s) && Unrecorded(s, l.call) && l.call < |s.ops| && l.op == s.ops[l.call]
    requires result == Answer(FlatAfter(s.log), l.op) && Apply(FlatAfter(s.log), l.op) == FlatAfter(s.log)
    ensures Linearizable(Answered(s, t, l, result, locked))
  {
    var s' := Answered(s, t, l, result, locked);
    assert View(s') == View(s);
    RecordLinearizes(s, s', LogEntry(l.call, l.op, result));
  }

  lemma AnsweredLocal(s: State, t: nat, l: Local, result: Result, locked: bool)
    requires t < |s.threads| && (l.Called? || l.Deleting?)
    requires l.call < |s.ops| && s.ops[l.call] == l.op && l.inv <= |s.log|
    ensures var s' := Answered(s, t, l, result, locked); LocalOk(s', s'.threads[t])
  {
  }

  lemma AnsweredOnlyThread(s: State, t: nat, l: Local, result: Result, locked: bool)
    requires t < |s.threads| && l == s.threads[t] && (l.Called? || l.Deleting?)
    ensures OnlyThread(s, Answered(s, t, l, result, locked), t)
  {
  }

  lemma AnsweredStep(s: State, t: nat, l: Local, result: Result, locked: bool)
    requires Inv(s) && t < |s.threads| && l == s.threads[t] && (l.Called? || l.Deleting?)
    requires LocalOk(s, l) && Unrecorded(s, l.call) && locked == l.Deleting?
    requires result == Answer(FlatAfter(s.log), l.op) && Apply(FlatAfter(s.log), l.op) == FlatAfter(s.log)
    ensures Inv(Answered(s, t, l, result, locked))
  {
    var s' := Answered(s, t, l, result, locked);
    AnsweredLinearizes(s, t, l, result, locked);
    AnsweredLocal(s, t, l, result, locked);
    AnsweredOnlyThread(s, t, l, result, locked);
    assert HoldsLock(l) ==> s.writer == Some(t);
    if locked { LockTaken(s, s', t); } else { LockWithout(s, s', t); }
    QuietStep(s, s', t);
  }

  lemma ReadKept(s: State, t: nat)
    requires Inv(s) && Enabled(s, Advance(t)) && s.threads[t].Called? && IsRead(s.threads[t].op)
    ensures Inv(StepRead(s, t, s.threads[t]))
  {
    var l := s.threads[t];
    assert LocalOk(s, l);
    ReadIsAnswer(View(s), l.op);
    AnsweredStep(s, t, l, Read(View(s), l.op), false);
  }

  lemma AddLockKept(s: State, t: nat)
    requires Inv(s) && Enabled(s, Advance(t)) && s.threads[t].Called? && s.threads[t].op.AddOp?
    ensures Inv(StepAddLock(s, t, s.threads[t]))
  {
    var l := s.threads[t];
    assert LocalOk(s, l);
    if Ignored(l.op) {
      AnsweredStep(s, t, l, Done, false);
    } else {
      TakeLock(s, t, Adding(l.call, l.op, l.inv));
    }
  }

  // A step that is private to thread t but for taking the lock.
  lemma PrivateStep(s: State, s': State, t: nat, l': Local)
    requires Inv(s) && t < |s.threads|
    requires s' == SetThread(s, t, l').(writer := s'.writer)
    requires CallOf(l') == CallOf(s.threads[t]) && LocalOk(s, l')
    requires LockOk(s') && RefsOk(s') && MapsOk(s')
    ensures Inv(s')
  {
    QuietHistory(s, s');
    PrivateThreads(s, s', t, l');
    CallsKept(s, s', t);
  }

  lemma CallsKept(s: State, s': State, t: nat)
    requires CallsApart(s) && t < |s.threads| == |s'.threads|
    requires forall u :: 0 <= u < |s.threads| && u != t ==> s'.threads[u] == s.threads[u]
    requires CallOf(s'.threads[t]) == CallOf(s.threads[t]) || s'.threads[t].Idle?
    ensures CallsApart(s')
  {
  }

  lemma PrivateThreads(s: State, s': State, t: nat, l': Local)
    requires ThreadsOk(s) && t < |s.threads| && LocalOk(s, l')
    requires s' == SetThread(s, t, l').(writer := s'.writer)
    ensures ThreadsOk(s')
  {
    forall u | 0 <= u < |s'.threads| ensures LocalOk(s', s'.threads[u]) {
      assert u != t ==> LocalOk(s, s.threads[u]);
      LocalSameMaps(s, s', s'.threads[u]);
    }
  }

  lemma PrivateMaps(s: State, s': State, t: nat)
    requires RefsOk(s) && MapsOk(s) && s'.clusters == s.clusters && s'.heap == s.heap
    requires forall r :: !BeingPruned(s, r)
    ensures RefsOk(s') && MapsOk(s')
  {
    assert forall r: Ref :: Attached(s', r) == Attached(s, r);
  }

  // Taking the lock changes nothing else.
  lemma TakeLock(s: State, t: nat, l': Local)
    requires Inv(s) && t < |s.threads| && s.writer == None
    requires CallOf(l') == CallOf(s.threads[t]) && LocalOk(s, l')
    ensures Inv(SetThread(s.(writer := Some(t)), t, l'))
  {
    var s' := SetThread(s, t, l').(writer := Some(t));
    LockTaken(s, s', t);
    PrivateMaps(s, s', t);
    PrivateStep(s, s', t, l');
  }

  lemma LocalSameMaps(s: State, s': State, l: Local)
    requires LocalOk(s, l)
    requires s'.clusters == s.clusters && s'.heap == s.heap && s'.log == s.log && s'.ops == s.ops
    ensures LocalOk(s', l)
  {
    assert forall r: Ref :: Attached(s', r) == Attached(s, r);
  }

  lemma LoadKept(s: State, t: nat)
    requires Inv(s) && Enabled(s, Advance(t)) && s.threads[t].Called? && s.threads[t].op.DeleteOp?
    ensures Inv(StepLoad(s, t, s.threads[t]))
  {
    var l := s.threads[t];
    assert LocalOk(s, l);
    if ClusterOf(l.op) !in s.clusters {
      NothingToDelete(s, l.op);
      AnsweredStep(s, t, l, Done, false);
    } else {
      MoveOn(s, t, Loaded(l.call, l.op, l.inv, s.clusters[ClusterOf(l.op)], None));
    }
  }

  // A private step: the thread moves on, nothing shared changes.
  lemma MoveOn(s: State, t: nat, l': Local)
    requires Inv(s) && t < |s.threads| && !HoldsLock(s.threads[t]) && !HoldsLock(l')
    requires CallOf(l') == CallOf(s.threads[t]) && LocalOk(s, l')
    ensures Inv(SetThread(s, t, l'))
  {
    var s' := SetThread(s, t, l');
    LockWithout(s, s', t);
    OtherPruned(s, s', t);
    PrivateStep(s, s', t, l');
  }

  // Whoever is pruning is another thread, and still is.
  lemma OtherPruned(s: State, s': State, t: nat)
    requires RefsOk(s) && MapsOk(s) && t < |s.threads| && !s.threads[t].Pruning?
    requires |s'.threads| == |s.threads| && s' == SetThread(s, t, s'.threads[t])
    ensures RefsOk(s') && MapsOk(s')
  {
    assert forall r: Ref :: Attached(s', r) == Attached(s, r);
    assert forall r :: BeingPruned(s, r) ==> BeingPruned(s', r);
  }

  // Deleting a key the view does not reach is no change to the flat map.
  lemma NothingToDelete(s: State, op: Op)
    requires op.DeleteOp? && !Has(View(s), KeyOf(op.clusterID, op.w))
    ensures Apply(Flat(View(s)), op) == Flat(View(s))
  {
    KeysAreHas(View(s));
  }

  lemma DeleteLockKept(s: State, t: nat)
    requires Inv(s) && Enabled(s, Advance(t)) && s.threads[t].Loaded?
    ensures Inv(StepDeleteLock(s, t, s.threads[t]))
  {
    var l := s.threads[t];
    assert LocalOk(s, l);
    TakeLock(s, t, Deleting(l.call, l.op, l.inv, l.ref, l.at));
  }

  // ---------- effects under the lock ----------

  // No hooked-up inner map is exchanged and no unhooked one comes back.
  ghost predicate Undisturbing(s: State, s': State) {
    (forall op: Op, ref: Ref :: op.DeleteOp? && Hooked(s, op, ref) ==> Hooked(s', op, ref))
    && (forall ref: Ref :: Unhooked(s, ref) ==> Unhooked(s', ref))
  }

  // Thread u is not disturbed by t's change of the maps.
  lemma UndisturbedBy(s: State, s': State, t: nat, u: nat)
    requires ThreadsOk(s) && CallsApart(s) && OnlyThread(s, s', t) && u < |s.threads| && u != t
    requires Undisturbing(s, s')
    ensures LocalOk(s', s'.threads[u])
  {
    var l := s.threads[u];
    assert LocalOk(s, l);
    if !l.Idle? && Unrecorded(s, l.call) {
      UnrecordedKept(s, s', t, l.call);
    }
  }

  lemma EffectStep(s: State, s': State, t: nat)
    requires Inv(s) && OnlyThread(s, s', t)
    requires s.writer == Some(t) && s'.writer == Some(t)
    requires CallOf(s'.threads[t]) == CallOf(s.threads[t]) && !s.threads[t].Idle?
    requires RefsOk(s') && MapsOk(s') && LocalOk(s', s'.threads[t]) && Linearizable(s')
    requires Undisturbing(s, s')
    ensures Inv(s')
  {
    EffectThreads(s, s', t);
    CallsKept(s, s', t);
    LockTaken(s, s', t);
  }

  lemma EffectThreads(s: State, s': State, t: nat)
    requires ThreadsOk(s) && CallsApart(s) && OnlyThread(s, s', t) && !s.threads[t].Idle?
    requires LocalOk(s', s'.threads[t]) && Undisturbing(s, s')
    ensures ThreadsOk(s')
  {
    forall u | 0 <= u < |s.threads| && u != t ensures LocalOk(s', s'.threads[u]) {
      UndisturbedBy(s, s', t, u);
    }
  }

  lemma InsertView(s: State, k: Key, item: Item)
    requires RefsOk(s)
    ensures RefsOk(InsertItem(s, k, item))
    ensures View(InsertItem(s, k, item)) == Put(View(s), k.cluster, k.identity, k.env, item)
  {
    var s' := InsertItem(s, k, item);
    InsertRefs(s, k, item);
    InsertedInner(s, k, item);
    ViewUpdated(s, s', k.cluster, s'.heap[s'.clusters[k.cluster]]);
  }

  lemma InsertRefs(s: State, k: Key, item: Item)
    requires RefsOk(s)
    ensures RefsOk(InsertItem(s, k, item)) && k.cluster in InsertItem(s, k, item).clusters
    ensures var s' := InsertItem(s, k, item);
            forall d <- s.clusters :: d != k.cluster ==>
              s'.clusters[d] == s.clusters[d] && s'.heap[s.clusters[d]] == s.heap[s.clusters[d]]
  {
  }

  // The inner map of a cluster, empty if it has none.
  function InnerOf(s: State, c: string): Identities { if c in s.clusters then Deref(s, c) else map[] }

  lemma InsertedInner(s: State, k: Key, item: Item)
    requires RefsOk(s)
    ensures RefsOk(InsertItem(s, k, item)) && k.cluster in InsertItem(s, k, item).clusters
    ensures InnerOf(InsertItem(s, k, item), k.cluster) == PutIdentity(InnerOf(s, k.cluster), k.identity, k.env, item)
  {
    InsertRefs(s, k, item);
  }

  // One cluster's inner map changed or was hooked up; the others are as before.
  lemma ViewUpdated(s: State, s': State, c: string, inner: Identities)
    requires RefsOk(s) && RefsOk(s')
    requires s'.clusters.Keys == s.clusters.Keys + {c}
    requires s'.heap[s'.clusters[c]] == inner
    requires forall d <- s.clusters :: d != c ==> s'.clusters[d] == s.clusters[d] && s'.heap[s.clusters[d]] == s.heap[s.clusters[d]]
    ensures View(s') == View(s)[c := inner]
  {
  }

  lemma InsertHooked(s: State, k: Key, item: Item, op: Op, ref: Ref)
    requires RefsOk(s) && op.DeleteOp?
    ensures Hooked(s, op, ref) ==> Hooked(InsertItem(s, k, item), op, ref)
  {
  }

  lemma InsertAttached(s: State, k: Key, item: Item, ref: Ref)
    requires RefsOk(s)
    ensures Unhooked(s, ref) ==> Unhooked(InsertItem(s, k, item), ref)
    ensures Attached(s, ref) ==> Attached(InsertItem(s, k, item), ref)
  {
    var s' := InsertItem(s, k, item);
    if Unhooked(s, ref) {
      forall c <- s'.clusters ensures s'.clusters[c] != ref {
        if c in s.clusters { assert s.clusters[c] != ref; }
      }
    }
    if Attached(s, ref) {
      var c :| c in s.clusters && s.clusters[c] == ref;
      assert s'.clusters[c] == ref;
    }
  }

  lemma InsertInner(s: State, k: Key, item: Item)
    requires RefsOk(s) && MapsOk(s) && item.clusterID == k.cluster
    ensures var s' := InsertItem(s, k, item);
            RefsOk(s') && InnerOk(s'.heap[s'.clusters[k.cluster]], k.cluster)
            && s'.heap[s'.clusters[k.cluster]] != map[]
  {
    InsertedInner(s, k, item);
    PutInnerOk(InnerOf(s, k.cluster), k.cluster, k.identity, k.env, item);
  }

  lemma InsertMaps(s: State, k: Key, item: Item)
    requires RefsOk(s) && MapsOk(s) && item.clusterID == k.cluster
    requires forall r :: !BeingPruned(s, r)
    ensures var s' := InsertItem(s, k, item); RefsOk(s') && MapsOk(s')
  {
    var s' := InsertItem(s, k, item);
    InsertInner(s, k, item);
    var ref := s'.clusters[k.cluster];
    forall c <- s'.clusters ensures InnerOk(s'.heap[s'.clusters[c]], c) && s'.heap[s'.clusters[c]] != map[] {
      if c != k.cluster {
        assert s'.clusters[c] == s.clusters[c] != ref;
      }
    }
    forall r: Ref | r < |s'.heap| && s'.heap[r] != map[] ensures Attached(s', r) {
      if r != ref { InsertAttached(s, k, item, r); }
    }
  }

  // A call takes effect on the maps and the log together.
  function Effected(s1: State, t: nat, l: Local, l': Local): State
    requires t < |s1.threads| && !l.Idle?
  {
    SetThread(Record(s1, l.call, l.op, Done), t, l')
  }

  lemma EffectLinearizes(s: State, s1: State, t: nat, l: Local, l': Local)
    requires t < |s.threads| && !l.Idle?
    requires s1 == s.(clusters := s1.clusters, heap := s1.heap)
    requires Linearizable(s) && Unrecorded(s, l.call) && l.call < |s.ops| && l.op == s.ops[l.call]
    requires l.op.AddOp? || l.op.DeleteOp?
    requires Flat(View(s1)) == Apply(FlatAfter(s.log), l.op)
    ensures Linearizable(Effected(s1, t, l, l'))
  {
    var s' := Effected(s1, t, l, l');
    assert View(s') == View(s1);
    RecordLinearizes(s, s', LogEntry(l.call, l.op, Done));
  }

  lemma EffectOnlyThread(s: State, s1: State, t: nat, l: Local, l': Local)
    requires t < |s.threads| && l == s.threads[t] && !l.Idle?
    requires s1 == s.(clusters := s1.clusters, heap := s1.heap)
    ensures OnlyThread(s, Effected(s1, t, l, l'), t)
  {
  }

  lemma AddKept(s: State, t: nat)
    requires Inv(s) && Enabled(s, Advance(t)) && s.threads[t].Adding?
    ensures s.threads[t].op.AddOp? && Inv(StepAdd(s, t, s.threads[t]))
  {
    var l := s.threads[t];
    assert LocalOk(s, l);
    assert HoldsLock(l);
    var k := KeyOf(l.op.clusterID, l.op.w);
    InsertStep(s, t, l, k, Item(l.op.w, k.cluster));
  }

  lemma InsertStep(s: State, t: nat, l: Local, k: Key, item: Item)
    requires Inv(s) && t < |s.threads| && l == s.threads[t] && l.Adding? && LocalOk(s, l)
    requires k == KeyOf(l.op.clusterID, l.op.w) && item == Item(l.op.w, k.cluster)
    requires s.writer == Some(t)
    ensures Inv(Effected(InsertItem(s, k, item), t, l, Leaving(l.call, l.op, l.inv, |s.log|, Done, true)))
  {
    var l' := Leaving(l.call, l.op, l.inv, |s.log|, Done, true);
    var s' := Effected(InsertItem(s, k, item), t, l, l');
    InsertLinearizes(s, t, l, k, item, l');
    InsertMaps(s, k, item);
    SameMapsOk(InsertItem(s, k, item), s');
    EffectOnlyThread(s, InsertItem(s, k, item), t, l, l');
    LeavingLocal(InsertItem(s, k, item), t, l);
    InsertUndisturbing(s, k, item, s');
    EffectStep(s, s', t);
  }

  lemma LeavingLocal(s1: State, t: nat, l: Local)
    requires t < |s1.threads| && !l.Idle? && l.call < |s1.ops| && s1.ops[l.call] == l.op && l.inv <= |s1.log|
    ensures var s' := Effected(s1, t, l, Leaving(l.call, l.op, l.inv, |s1.log|, Done, true));
            LocalOk(s', s'.threads[t])
  {
  }

  lemma InsertLinearizes(s: State, t: nat, l: Local, k: Key, item: Item, l': Local)
    requires t < |s.threads| && l.Adding? && LocalOk(s, l) && RefsOk(s) && Linearizable(s)
    requires k == KeyOf(l.op.clusterID, l.op.w) && item == Item(l.op.w, k.cluster)
    ensures Linearizable(Effected(InsertItem(s, k, item), t, l, l'))
  {
    InsertView(s, k, item);
    PutFlat(View(s), k.cluster, k.identity, k.env, item);
    EffectLinearizes(s, InsertItem(s, k, item), t, l, l');
  }

  lemma InsertUndisturbing(s: State, k: Key, item: Item, s': State)
    requires RefsOk(s)
    requires var s1 := InsertItem(s, k, item); s'.clusters == s1.clusters && s'.heap == s1.heap
    ensures Undisturbing(s, s')
  {
    var s1 := InsertItem(s, k, item);
    forall op: Op, ref: Ref | op.DeleteOp? && Hooked(s, op, ref) ensures Hooked(s', op, ref) {
      InsertHooked(s, k, item, op, ref);
    }
    forall ref: Ref | Unhooked(s, ref) ensures Unhooked(s', ref) {
      InsertAttached(s, k, item, ref);
      SameAttached(s1, s', ref);
    }
  }

  lemma SameAttached(s: State, s': State, ref: Ref)
    requires s'.clusters == s.clusters && s'.heap == s.heap
    ensures Attached(s', ref) == Attached(s, ref) && Unhooked(s', ref) == Unhooked(s, ref)
  {
  }

  lemma SameMapsOk(s: State, s': State)
    requires RefsOk(s) && MapsOk(s) && s'.clusters == s.clusters && s'.heap == s.heap
    requires forall r :: BeingPruned(s, r) ==> BeingPruned(s', r)
    ensures RefsOk(s') && MapsOk(s')
  {
    assert forall r: Ref :: Attached(s', r) == Attached(s, r);
  }

  // ---------- deleting ----------

  lemma DropView(s: State, k: Key)
    requires RefsOk(s) && k.cluster in s.clusters
    ensures var x := View(s);
            View(DropItem(s, s.clusters[k.cluster], k)) == x[k.cluster := DropIdentity(x[k.cluster], k.identity, k.env)]
  {
    var s' := DropItem(s, s.clusters[k.cluster], k);
    ViewUpdated(s, s', k.cluster, s'.heap[s.clusters[k.cluster]]);
  }

  lemma DropMaps(s: State, s': State, t: nat, k: Key)
    requires RefsOk(s) && MapsOk(s) && k.cluster in s.clusters
    requires var s1 := DropItem(s, s.clusters[k.cluster], k);
             s'.clusters == s1.clusters && s'.heap == s1.heap
    requires s.heap[s.clusters[k.cluster]] != map[]
    requires forall r :: !BeingPruned(s, r)
    requires BeingPruned(s', s.clusters[k.cluster])
    ensures RefsOk(s') && MapsOk(s')
  {
    var ref := s.clusters[k.cluster];
    assert Attached(s, ref);
    assert InnersOk(s') by {
      DropInnerOk(s.heap[ref], k.cluster, k.identity, k.env);
      hide InnerOk, DropIdentity, FilledAttached, EmptyPruned;
    }
    assert FilledAttached(s') by {
      hide InnersOk, EmptyPruned, DropIdentity;
      assert forall r: Ref :: Attached(s', r) == Attached(s, r);
    }
    assert EmptyPruned(s') by { hide InnersOk, FilledAttached, DropIdentity; }
  }

  lemma DropUndisturbing(s: State, s': State, ref: Ref, k: Key)
    requires ref < |s.heap| && s.heap[ref] != map[]
    requires s'.clusters == s.clusters && s'.heap == DropItem(s, ref, k).heap
    ensures Undisturbing(s, s')
  {
    assert forall r: Ref :: Attached(s', r) == Attached(s, r);
  }

  lemma DeleteLinearizes(s: State, t: nat, l: Local, k: Key, l': Local)
    requires t < |s.threads| && l.Deleting? && l.op.DeleteOp? && LocalOk(s, l) && RefsOk(s) && Linearizable(s)
    requires k == KeyOf(l.op.clusterID, l.op.w) && l.at.None?
    ensures Linearizable(Effected(DropItem(s, l.ref, k), t, l, l'))
  {
    DropView(s, k);
    DropInnerFlat(View(s), k.cluster, k.identity, k.env);
    EffectLinearizes(s, DropItem(s, l.ref, k), t, l, l');
  }

  lemma DroppedMaps(s: State, s': State, t: nat, l: Local, k: Key)
    requires RefsOk(s) && MapsOk(s) && s.writer == Some(t) && t < |s.threads| && l == s.threads[t] && l.Deleting?
    requires l.op.DeleteOp? && Hooked(s, l.op, l.ref) && k == KeyOf(l.op.clusterID, l.op.w) && k.identity in s.heap[l.ref]
    requires s'.clusters == s.clusters && s'.heap == DropItem(s, l.ref, k).heap && BeingPruned(s', l.ref)
    ensures RefsOk(s') && MapsOk(s') && Undisturbing(s, s')
  {
    hide MapsOk, DropIdentity, Undisturbing;
    DropMaps(s, s', t, k);
    DropUndisturbing(s, s', l.ref, k);
  }

  lemma DeleteStep(s: State, t: nat, l: Local, k: Key)
    requires Inv(s) && t < |s.threads| && l == s.threads[t] && l.Deleting? && LocalOk(s, l)
    requires l.op.DeleteOp? && k == KeyOf(l.op.clusterID, l.op.w)
    requires s.writer == Some(t) && l.at.None? && k.identity in s.heap[l.ref]
    ensures Inv(Effected(DropItem(s, l.ref, k), t, l, Pruning(l.call, l.op, l.inv, l.ref, |s.log|)))
  {
    var l' := Pruning(l.call, l.op, l.inv, l.ref, |s.log|);
    var s' := Effected(DropItem(s, l.ref, k), t, l, l');
    assert Hooked(s, l.op, l.ref) && l.call < |s.ops| && s.ops[l.call] == l.op && l.inv <= |s.log|;
    assert RefsOk(s) && MapsOk(s) && Linearizable(s) && l.ref < |s.heap| && BeingPruned(s', l.ref);
    hide Inv, RefsOk, BeingPruned, Linearizable, MapsOk, CallsApart, LockOk, ThreadsOk, LocalOk, DropIdentity, OnlyThread, Undisturbing, KeyOf, Unrecorded;
    DeleteLinearizes(s, t, l, k, l');
    DroppedMaps(s, s', t, l, k);
    EffectOnlyThread(s, DropItem(s, l.ref, k), t, l, l');
    PruningLocal(DropItem(s, l.ref, k), t, l);
    EffectStep(s, s', t);
  }

  lemma PruningLocal(s1: State, t: nat, l: Local)
    requires t < |s1.threads| && l.Deleting? && l.call < |s1.ops| && s1.ops[l.call] == l.op && l.inv <= |s1.log|
    requires l.op.DeleteOp? && Hooked(s1, l.op, l.ref)
    ensures var s' := Effected(s1, t, l, Pruning(l.call, l.op, l.inv, l.ref, |s1.log|));
            LocalOk(s', s'.threads[t])
  {
  }

  lemma DeleteKept(s: State, t: nat)
    requires Inv(s) && Enabled(s, Advance(t)) && s.threads[t].Deleting?
    ensures s.threads[t].op.DeleteOp? && Inv(StepDelete(s, t, s.threads[t]))
  {
    var l := s.threads[t];
    assert LocalOk(s, l);
    assert HoldsLock(l);
    var k := KeyOf(l.op.clusterID, l.op.w);
    assert l.op.DeleteOp? && (l.at.Some? ==> Unhooked(s, l.ref)) && (l.at.None? ==> l.ref < |s.heap|);
    hide Linearizable, MapsOk, CallsApart, LockOk, ThreadsOk, LocalOk, DropIdentity, KeyOf;
    if l.ref >= |s.heap| || k.identity !in s.heap[l.ref] { DeleteNothing(s, t, l, k); } else { DeleteStep(s, t, l, k); }
  }

  lemma DeleteNothing(s: State, t: nat, l: Local, k: Key)
    requires Inv(s) && t < |s.threads| && l == s.threads[t] && l.Deleting? && LocalOk(s, l) && s.writer == Some(t)
    requires l.op.DeleteOp? && k == KeyOf(l.op.clusterID, l.op.w) && (l.ref >= |s.heap| || k.identity !in s.heap[l.ref])
    ensures Inv(StepDelete(s, t, l))
  {
    hide MapsOk, CallsApart, LockOk, ThreadsOk;
    match l.at {
      case Some(i) => StayLocked(s, t, Leaving(l.call, l.op, l.inv, i, Done, true));
      case None =>
        NothingToDelete(s, l.op);
        AnsweredStep(s, t, l, Done, true);
    }
  }

  // A private step of the thread that has the lock.
  lemma StayLocked(s: State, t: nat, l': Local)
    requires Inv(s) && t < |s.threads| && s.writer == Some(t) && !s.threads[t].Pruning?
    requires CallOf(l') == CallOf(s.threads[t]) && LocalOk(s, l')
    ensures Inv(SetThread(s, t, l'))
  {
    var s' := SetThread(s, t, l');
    LockTaken(s, s', t);
    PrivateMaps(s, s', t);
    PrivateStep(s, s', t, l');
  }

  // ---------- unhooking ----------

  predicate Waiting(l: Local, ref: Ref) { l.Loaded? && l.ref == ref && l.at.None? }

  // What helping does to one thread: a waiting one gets its place in the log.
  predicate HelpedRight(l: Local, l': Local, ref: Ref, base: nat, entries: seq<LogEntry>) {
    if Waiting(l, ref) then
      l'.Loaded? && l'.at.Some? && l' == Loaded(l.call, l.op, l.inv, ref, l'.at)
      && base <= l'.at.value < base + |entries|
      && entries[l'.at.value - base] == LogEntry(l.call, l.op, Done)
    else l' == l
  }

  lemma {:induction false} HelpRight(threads: seq<Local>, ref: Ref, base: nat)
    ensures |HelpThreads(threads, ref, base)| == |threads|
    ensures forall u :: 0 <= u < |threads| ==>
              HelpedRight(threads[u], HelpThreads(threads, ref, base)[u], ref, base, HelpLog(threads, ref))
    decreases |threads|
  {
    if threads != [] {
      var n := |threads| - 1;
      HelpRight(threads[..n], ref, base);
      var entries, before := HelpLog(threads, ref), HelpLog(threads[..n], ref);
      assert before <= entries;
      forall u | 0 <= u < n
        ensures HelpedRight(threads[u], HelpThreads(threads, ref, base)[u], ref, base, entries)
      {
        assert threads[..n][u] == threads[u];
        assert HelpedRight(threads[u], HelpThreads(threads[..n], ref, base)[u], ref, base, before);
      }
    }
  }

  predicate FromWaiting(e: LogEntry, threads: seq<Local>, ref: Ref) {
    exists l <- threads :: Waiting(l, ref) && e == LogEntry(l.call, l.op, Done)
  }

  // Every help entry is some waiting thread's.
  lemma {:induction false} HelpLogFrom(threads: seq<Local>, ref: Ref)
    ensures forall e <- HelpLog(threads, ref) :: FromWaiting(e, threads, ref)
    decreases |threads|
  {
    if threads != [] {
      var n := |threads| - 1;
      HelpLogFrom(threads[..n], ref);
      assert threads == threads[..n] + [threads[n]];
      forall e <- HelpLog(threads, ref) ensures FromWaiting(e, threads, ref) {
        if e in HelpLog(threads[..n], ref) {
          assert FromWaiting(e, threads[..n], ref);
        } else {
          assert threads[n] in threads;
        }
      }
    }
  }

  predicate DistinctCalls(log: seq<LogEntry>) {
    forall i, j :: 0 <= i < j < |log| ==> log[i].call != log[j].call
  }

  predicate ThreadCallsApart(threads: seq<Local>) {
    forall t, u :: 0 <= t < u < |threads| && !threads[t].Idle? && !threads[u].Idle?
                   ==> threads[t].call != threads[u].call
  }

  lemma {:induction false} HelpLogDistinct(threads: seq<Local>, ref: Ref)
    requires ThreadCallsApart(threads)
    ensures DistinctCalls(HelpLog(threads, ref))
    decreases |threads|
  {
    if threads != [] {
      var n := |threads| - 1;
      var before := HelpLog(threads[..n], ref);
      HelpLogDistinct(threads[..n], ref);
      HelpLogFrom(threads[..n], ref);
      forall i | 0 <= i < |before| ensures threads[n].Idle? || before[i].call != threads[n].call {
        assert FromWaiting(before[i], threads[..n], ref);
        var l :| l in threads[..n] && Waiting(l, ref) && before[i] == LogEntry(l.call, l.op, Done);
        var u :| 0 <= u < n && threads[..n][u] == l;
        assert threads[u] == l;
      }
    }
  }

  predicate NothingIn(f: FlatMap, c: string) { forall k <- f :: k.cluster != c }

  lemma IdleDelete(log: seq<LogEntry>, e: LogEntry, f: FlatMap, c: string)
    requires Legal(log) && FlatAfter(log) == f && NothingIn(f, c)
    requires e.op.DeleteOp? && ClusterOf(e.op) == c && e.result == Done
    ensures Legal(log + [e]) && FlatAfter(log + [e]) == f
  {
    LegalSnoc(log, e);
    assert Apply(f, e.op) == f;
  }

  // Deletes in a cluster that holds nothing change nothing.
  lemma {:induction false} IdleDeletes(log: seq<LogEntry>, more: seq<LogEntry>, f: FlatMap, c: string)
    requires Legal(log) && FlatAfter(log) == f && NothingIn(f, c)
    requires forall e <- more :: e.op.DeleteOp? && ClusterOf(e.op) == c && e.result == Done
    ensures Legal(log + more) && FlatAfter(log + more) == f
    decreases |more|
  {
    if more == [] {
      assert log + more == log;
    } else {
      var e, next := more[0], log + [more[0]];
      assert e in more;
      IdleDelete(log, e, f, c);
      assert next + more[1..] == log + more;
      IdleDeletes(next, more[1..], f, c);
    }
  }

  function Unhook(s: State, t: nat, l: Local): State
    requires t < |s.threads| && l.Pruning? && l.op.DeleteOp?
  {
    s.(clusters := s.clusters - {ClusterOf(l.op)},
       threads := HelpThreads(s.threads, l.ref, |s.log|)[t := Leaving(l.call, l.op, l.inv, l.lin, Done, true)],
       log := s.log + HelpLog(s.threads, l.ref))
  }

  // Every waiting thread's delete is in the cluster being unhooked.
  lemma WaitersHere(s: State, l: Local)
    requires RefsOk(s) && l.Pruning? && l.op.DeleteOp? && Hooked(s, l.op, l.ref)
    requires ThreadsOk(s)
    ensures forall e <- HelpLog(s.threads, l.ref) ::
              e.op.DeleteOp? && ClusterOf(e.op) == ClusterOf(l.op) && e.result == Done
              && Unrecorded(s, e.call) && e.call < |s.ops| && s.ops[e.call] == e.op
  {
    HelpLogFrom(s.threads, l.ref);
    forall e <- HelpLog(s.threads, l.ref)
      ensures e.op.DeleteOp? && ClusterOf(e.op) == ClusterOf(l.op) && e.result == Done
              && Unrecorded(s, e.call) && e.call < |s.ops| && s.ops[e.call] == e.op
    {
      assert FromWaiting(e, s.threads, l.ref);
      var w :| w in s.threads && Waiting(w, l.ref) && e == LogEntry(w.call, w.op, Done);
      var u :| 0 <= u < |s.threads| && s.threads[u] == w;
      assert LocalOk(s, s.threads[u]);
    }
  }

  lemma UnhookedFlat(s: State, s': State, c: string)
    requires RefsOk(s) && c in s.clusters && Deref(s, c) == map[]
    requires s'.clusters == s.clusters - {c} && s'.heap == s.heap
    ensures Flat(View(s')) == Flat(View(s)) && NothingIn(Flat(View(s)), c)
  {
    assert View(s') == View(s) - {c};
    UnhookEmptyFlat(View(s), c);
    KeysAreHas(View(s));
  }

  // Calls not yet recorded take their places at the end.
  lemma MoreLinearizes(s: State, s': State, more: seq<LogEntry>)
    requires Linearizable(s) && s'.log == s.log + more && s'.ops == s.ops && s'.done == s.done
    requires DistinctCalls(more)
    requires forall e <- more :: Unrecorded(s, e.call) && e.call < |s.ops| && s.ops[e.call] == e.op
    requires Legal(s'.log) && Flat(View(s')) == FlatAfter(s'.log)
    ensures Linearizable(s')
  {
    hide Legal, FlatAfter, Flat, View;
    assert forall i :: |s.log| <= i < |s'.log| ==> s'.log[i] in more;
  }

  lemma UnhookLinearizes(s: State, s': State, l: Local)
    requires RefsOk(s) && CallsApart(s) && l.Pruning? && l.op.DeleteOp? && Hooked(s, l.op, l.ref)
    requires ThreadsOk(s)
    requires s.heap[l.ref] == map[] && Linearizable(s)
    requires s'.clusters == s.clusters - {ClusterOf(l.op)} && s'.heap == s.heap
    requires s'.log == s.log + HelpLog(s.threads, l.ref) && s'.ops == s.ops && s'.done == s.done
    ensures Linearizable(s')
  {
    var c, more := ClusterOf(l.op), HelpLog(s.threads, l.ref);
    UnhookedFlat(s, s', c);
    WaitersHere(s, l);
    HelpLogDistinct(s.threads, l.ref);
    hide Flat, View, Unrecorded;
    IdleDeletes(s.log, more, FlatAfter(s.log), c);
    MoreLinearizes(s, s', more);
  }

  lemma UnhookMaps(s: State, s': State, l: Local)
    requires RefsOk(s) && MapsOk(s) && l.Pruning? && l.op.DeleteOp? && Hooked(s, l.op, l.ref)
    requires s.heap[l.ref] == map[] && forall r :: BeingPruned(s, r) ==> r == l.ref
    requires s'.clusters == s.clusters - {ClusterOf(l.op)} && s'.heap == s.heap
    ensures RefsOk(s') && MapsOk(s')
  {
    assert InnersOk(s') by { hide InnerOk, FilledAttached, EmptyPruned; }
    assert FilledAttached(s') by {
      forall r: Ref | r < |s'.heap| && s'.heap[r] != map[] ensures Attached(s', r) {
        assert Attached(s, r);
        var c :| c in s.clusters && s.clusters[c] == r;
        assert s'.clusters[c] == r;
      }
    }
  }

  lemma UnhookHooks(s: State, s': State, l: Local)
    requires RefsOk(s) && l.Pruning? && l.op.DeleteOp? && Hooked(s, l.op, l.ref) && s.heap[l.ref] == map[]
    requires s'.clusters == s.clusters - {ClusterOf(l.op)} && s'.heap == s.heap
    ensures Unhooked(s', l.ref)
    ensures forall r: Ref :: Unhooked(s, r) ==> Unhooked(s', r)
    ensures forall op: Op, r: Ref :: op.DeleteOp? && Hooked(s, op, r) && r != l.ref ==> Hooked(s', op, r)
  {
    forall r: Ref | Unhooked(s, r) ensures Unhooked(s', r) {
      forall c <- s'.clusters ensures s'.clusters[c] != r { assert s.clusters[c] != r; }
    }
  }

  // What unhooking does to another thread keeps it in order.
  lemma UnhookLocal(s: State, s': State, l: Local, w: Local, w': Local)
    requires RefsOk(s) && l.Pruning? && l.op.DeleteOp? && Hooked(s, l.op, l.ref) && LocalOk(s, w)
    requires s'.log == s.log + HelpLog(s.threads, l.ref) && s'.ops == s.ops
    requires HelpedRight(w, w', l.ref, |s.log|, HelpLog(s.threads, l.ref))
    requires !w.Deleting? && !w.Pruning?
    requires Unhooked(s', l.ref)
    requires forall r: Ref :: Unhooked(s, r) ==> Unhooked(s', r)
    requires forall op: Op, r: Ref :: op.DeleteOp? && Hooked(s, op, r) && r != l.ref ==> Hooked(s', op, r)
    requires !w.Idle? && !Waiting(w, l.ref) ==> forall e <- HelpLog(s.threads, l.ref) :: e.call != w.call
    ensures LocalOk(s', w')
  {
  }

  // A thread that is not waiting has no entry among the helped.
  lemma NotHelped(s: State, t: nat, ref: Ref)
    requires CallsApart(s) && t < |s.threads| && !s.threads[t].Idle? && !Waiting(s.threads[t], ref)
    ensures forall e <- HelpLog(s.threads, ref) :: e.call != s.threads[t].call
  {
    HelpLogFrom(s.threads, ref);
    forall e <- HelpLog(s.threads, ref) ensures e.call != s.threads[t].call {
      assert FromWaiting(e, s.threads, ref);
      var w :| w in s.threads && Waiting(w, ref) && e == LogEntry(w.call, w.op, Done);
      var u :| 0 <= u < |s.threads| && s.threads[u] == w;
      assert u != t;
    }
  }

  lemma UnhookThreads(s: State, s': State, t: nat)
    requires Inv(s) && t < |s.threads| && s.threads[t].Pruning? && s.threads[t].op.DeleteOp?
    requires LocalOk(s, s.threads[t]) && s.heap[s.threads[t].ref] == map[]
    requires s' == Unhook(s, t, s.threads[t])
    requires Unhooked(s', s.threads[t].ref)
    requires forall r: Ref :: Unhooked(s, r) ==> Unhooked(s', r)
    requires forall op: Op, r: Ref :: op.DeleteOp? && Hooked(s, op, r) && r != s.threads[t].ref ==> Hooked(s', op, r)
    ensures ThreadsOk(s')
  {
    var l := s.threads[t];
    HelpRight(s.threads, l.ref, |s.log|);
    forall u | 0 <= u < |s.threads| ensures LocalOk(s', s'.threads[u]) {
      var w := s.threads[u];
      assert LocalOk(s, w);
      if u == t {
        assert s'.log[l.lin] == s.log[l.lin];
      } else {
        assert HelpedRight(w, s'.threads[u], l.ref, |s.log|, HelpLog(s.threads, l.ref));
        assert HoldsLock(l) && !HoldsLock(w);
        if !w.Idle? && !Waiting(w, l.ref) { NotHelped(s, u, l.ref); }
        UnhookLocal(s, s', l, w, s'.threads[u]);
      }
    }
  }

  lemma UnhookLock(s: State, s': State, t: nat)
    requires LockOk(s) && CallsApart(s) && t < |s.threads| && s.threads[t].Pruning? && s.threads[t].op.DeleteOp?
    requires s' == Unhook(s, t, s.threads[t])
    ensures LockOk(s') && CallsApart(s')
  {
    var l := s.threads[t];
    hide HelpLog, HelpThreads;
    HelpRight(s.threads, l.ref, |s.log|);
    forall u | 0 <= u < |s.threads|
      ensures HoldsLock(s'.threads[u]) == HoldsLock(s.threads[u])
      ensures CallOf(s'.threads[u]) == CallOf(s.threads[u])
    {
      if u != t {
        assert HelpedRight(s.threads[u], s'.threads[u], l.ref, |s.log|, HelpLog(s.threads, l.ref));
      }
    }
  }

  lemma UnhookKept(s: State, t: nat)
    requires Inv(s) && t < |s.threads| && s.threads[t].Pruning? && s.threads[t].op.DeleteOp?
    requires LocalOk(s, s.threads[t]) && s.heap[s.threads[t].ref] == map[]
    ensures Inv(Unhook(s, t, s.threads[t]))
  {
    var l := s.threads[t];
    var s' := Unhook(s, t, l);
    assert s.writer == Some(t) by { assert HoldsLock(l); }
    UnhookMaps(s, s', l);
    UnhookHooks(s, s', l);
    UnhookLinearizes(s, s', l);
    UnhookThreads(s, s', t);
    UnhookLock(s, s', t);
  }

  lemma PruneKept(s: State, t: nat)
    requires Inv(s) && Enabled(s, Advance(t)) && s.threads[t].Pruning?
    ensures s.threads[t].op.DeleteOp? && Inv(StepPrune(s, t, s.threads[t]))
  {
    var l := s.threads[t];
    assert LocalOk(s, l);
    assert HoldsLock(l);
    if s.heap[l.ref] == map[] {
      UnhookKept(s, t);
    } else {
      NoPrune(s, t, Leaving(l.call, l.op, l.inv, l.lin, Done, true));
    }
  }

  // The inner map still holds something: nothing to unhook.
  lemma NoPruneMaps(s: State, s': State, t: nat)
    requires RefsOk(s) && MapsOk(s) && t < |s.threads| && s.writer == Some(t) && s.threads[t].Pruning?
    requires s.threads[t].ref < |s.heap| && s.heap[s.threads[t].ref] != map[]
    requires s'.clusters == s.clusters && s'.heap == s.heap
    ensures RefsOk(s') && MapsOk(s')
  {
    assert forall r: Ref :: Attached(s', r) == Attached(s, r);
    assert forall r :: BeingPruned(s, r) ==> r == s.threads[t].ref;
  }

  lemma NoPrune(s: State, t: nat, l': Local)
    requires Inv(s) && t < |s.threads| && s.writer == Some(t) && s.threads[t].Pruning?
    requires s.threads[t].ref < |s.heap| && s.heap[s.threads[t].ref] != map[]
    requires CallOf(l') == CallOf(s.threads[t]) && LocalOk(s, l')
    ensures Inv(SetThread(s, t, l'))
  {
    var s' := SetThread(s, t, l');
    LockTaken(s, s', t);
    NoPruneMaps(s, s', t);
    PrivateStep(s, s', t, l');
  }

  // ---------- every run ----------

  lemma StepKeepsInv(s: State, a: Action)
    requires Inv(s) && Enabled(s, a)
    ensures Inv(Step(s, a))
  {
    var l := s.threads[a.t];
    assert LocalOk(s, l);
    match a {
      case Invoke(t, op) => InvokeKept(s, t, op);
      case Return(t) => ReturnKept(s, t);
      case Advance(t) =>
        if l.Called? && IsRead(l.op) { ReadKept(s, t); }
        else if l.Called? && l.op.AddOp? { AddLockKept(s, t); }
        else if l.Called? { LoadKept(s, t); }
        else if l.Adding? { AddKept(s, t); }
        else if l.Loaded? { DeleteLockKept(s, t); }
        else if l.Deleting? { DeleteKept(s, t); }
        else { PruneKept(s, t); }
    }
  }

  lemma {:induction false} RunKeepsInv(s: State, actions: seq<Action>)
    requires Inv(s) && AllEnabled(s, actions)
    ensures Inv(Run(s, actions))
    decreases |actions|
  {
    if actions != [] {
      StepKeepsInv(s, actions[0]);
      RunKeepsInv(Step(s, actions[0]), actions[1..]);
    }
  }

  // Any number of threads, any calls, any interleaving.
  lemma EveryRunLinearizable(threads: nat, actions: seq<Action>)
    requires AllEnabled(Initial(threads), actions)
    ensures Linearizable(Run(Initial(threads), actions))
  {
    InitialInv(threads);
    RunKeepsInv(Initial(threads), actions);
  }

  // In every reachable state an inner map nobody can reach is empty, and one
  // that can be reached is not whenever the lock is free.
  lemma ReachableMaps(threads: nat, actions: seq<Action>, ref: Ref)
    requires AllEnabled(Initial(threads), actions)
    ensures var s := Run(Initial(threads), actions);
            ref < |s.heap| ==> (!Attached(s, ref) ==> s.heap[ref] == map[])
                               && (Attached(s, ref) && s.writer == None ==> s.heap[ref] != map[])
  {
    InitialInv(threads);
    RunKeepsInv(Initial(threads), actions);
  }

  // An unhooked inner map stays unhooked and empty for ever.
  lemma UnhookedForever(s: State, a: Action, ref: Ref)
    requires Inv(s) && Enabled(s, a) && Unhooked(s, ref)
    ensures Unhooked(Step(s, a), ref)
  {
    var l := s.threads[a.t];
    assert LocalOk(s, l);
    if a.Advance? && l.Adding? {
      AddKeepsUnhooked(s, a.t, l, ref);
    } else if a.Advance? && l.Deleting? {
      DeleteKeepsUnhooked(s, a.t, l, ref);
    } else if a.Advance? && l.Pruning? {
      PruneKeepsUnhooked(s, a.t, l, ref);
    } else {
      QuietAction(s, a);
      SameAttached(s, Step(s, a), ref);
    }
  }

  lemma QuietAction(s: State, a: Action)
    requires Enabled(s, a)
    requires a.Advance? ==> !s.threads[a.t].Adding? && !s.threads[a.t].Deleting? && !s.threads[a.t].Pruning?
    ensures Step(s, a).clusters == s.clusters && Step(s, a).heap == s.heap
  {
  }

  lemma AddKeepsUnhooked(s: State, t: nat, l: Local, ref: Ref)
    requires t < |s.threads| && l.Adding? && LocalOk(s, l) && RefsOk(s) && Unhooked(s, ref)
    ensures Unhooked(StepAdd(s, t, l), ref)
  {
    var k := KeyOf(l.op.clusterID, l.op.w);
    var item := Item(l.op.w, k.cluster);
    InsertAttached(s, k, item, ref);
    SameAttached(InsertItem(s, k, item), StepAdd(s, t, l), ref);
  }

  lemma DeleteKeepsUnhooked(s: State, t: nat, l: Local, ref: Ref)
    requires t < |s.threads| && l.Deleting? && LocalOk(s, l) && Unhooked(s, ref)
    ensures Unhooked(StepDelete(s, t, l), ref)
  {
    var s' := StepDelete(s, t, l);
    assert s'.clusters == s.clusters;
    assert forall c <- s'.clusters :: s.clusters[c] != ref;
  }

  lemma PruneKeepsUnhooked(s: State, t: nat, l: Local, ref: Ref)
    requires t < |s.threads| && l.Pruning? && LocalOk(s, l) && Unhooked(s, ref)
    ensures Unhooked(StepPrune(s, t, l), ref)
  {
    var s' := StepPrune(s, t, l);
    assert s'.heap == s.heap && s'.clusters.Keys <= s.clusters.Keys;
    forall c <- s'.clusters ensures s'.clusters[c] != ref { assert s.clusters[c] != ref; }
  }
}
