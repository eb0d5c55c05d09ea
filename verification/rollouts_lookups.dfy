// What the rollout lookups of any run tell: they see what was added last.
module RolloutsLookups {
  import opened Wrappers
  import opened Text
  import opened WorkloadIndex
  import opened RolloutsCache

  predicate IsAbout(op: Op, k: Key) { (op.AddOp? || op.DeleteOp?) && Concerns(op.clusterID, op.w, k) }

  // Of the first n operations, operation j added under the key, and none after it
  // is about the key.
  predicate LastAddAt(log: seq<LogEntry>, n: nat, k: Key, j: nat) {
    && j < n <= |log| && log[j].op.AddOp? && IsAbout(log[j].op, k) && k.identity != ""
    && forall i :: j < i < n ==> !IsAbout(log[i].op, k)
  }

  // The rollout stands under the key after the first n operations.
  ghost predicate Stands(log: seq<LogEntry>, n: nat, k: Key, w: Workload) {
    exists j: nat :: LastAddAt(log, n, k, j) && log[j].op.w == w
  }

  ghost predicate SomeStands(log: seq<LogEntry>, n: nat, k: Key) { exists w :: Stands(log, n, k, w) }

  lemma ApplyAt(f: FlatMap, op: Op, k: Key)
    ensures GetFlat(Apply(f, op), k)
         == if !IsAbout(op, k) || (op.AddOp? && k.identity == "") then GetFlat(f, k)
            else if op.AddOp? then Some(Item(op.w, k.cluster)) else None
  {
    match op {
      case AddOp(c, w) => FlatStepAt(f, AddEvent(c, w), k);
      case DeleteOp(c, w) => FlatStepAt(f, DeleteEvent(c, w), k);
      case _ =>
    }
  }

  lemma LastAddAtMore(log: seq<LogEntry>, n: nat, k: Key, j: nat)
    requires n < |log|
    ensures LastAddAt(log, n + 1, k, j)
       <==> if IsAbout(log[n].op, k) then j == n && log[n].op.AddOp? && k.identity != "" else LastAddAt(log, n, k, j)
  {
    hide IsAbout;
  }

  // The flat map holds what stands, and nothing else.
  lemma {:induction false} FlatHoldsWhatStands(log: seq<LogEntry>, n: nat, k: Key)
    requires n <= |log|
    ensures k in FlatAfter(log[..n]) ==> k.identity != "" && SomeStands(log, n, k)
    ensures forall j: nat :: LastAddAt(log, n, k, j) ==> GetFlat(FlatAfter(log[..n]), k) == Some(Item(log[j].op.w, k.cluster))
    decreases n
  {
    hide LastAddAt, Apply, IsAbout;
    if n == 0 {
      forall j: nat ensures !LastAddAt(log, 0, k, j) { NoneYet(log, k, j); }
    } else {
      FlatHoldsWhatStands(log, n - 1, k);
      assert log[..n][..n - 1] == log[..n - 1];
      ApplyAt(FlatAfter(log[..n - 1]), log[n - 1].op, k);
      forall j: nat
        ensures LastAddAt(log, n, k, j)
           <==> if IsAbout(log[n - 1].op, k) then j == n - 1 && log[n - 1].op.AddOp? && k.identity != ""
                else LastAddAt(log, n - 1, k, j)
      {
        LastAddAtMore(log, n - 1, k, j);
      }
      if k in FlatAfter(log[..n]) { StillStands(log, n - 1, k); }
    }
  }

  lemma NoneYet(log: seq<LogEntry>, k: Key, j: nat)
    ensures !LastAddAt(log, 0, k, j)
  {
  }

  lemma StillStands(log: seq<LogEntry>, n: nat, k: Key)
    requires n < |log| && k.identity != ""
    requires if IsAbout(log[n].op, k) then log[n].op.AddOp? else SomeStands(log, n, k)
    ensures SomeStands(log, n + 1, k)
  {
    hide IsAbout;
    if IsAbout(log[n].op, k) {
      LastAddAtMore(log, n, k, n);
      assert Stands(log, n + 1, k, log[n].op.w);
    } else {
      var w :| Stands(log, n, k, w);
      var j: nat :| LastAddAt(log, n, k, j) && log[j].op.w == w;
      LastAddAtMore(log, n, k, j);
      assert Stands(log, n + 1, k, w);
    }
  }

  lemma FlatIsWhatStands(log: seq<LogEntry>, n: nat, k: Key)
    requires n <= |log|
    ensures forall w :: Stands(log, n, k, w) <==> GetFlat(FlatAfter(log[..n]), k) == Some(Item(w, k.cluster))
    ensures k in FlatAfter(log[..n]) ==> FlatAfter(log[..n])[k].clusterID == k.cluster
  {
    hide FlatAfter, IsAbout;
    FlatHoldsWhatStands(log, n, k);
    if k in FlatAfter(log[..n]) {
      var w :| Stands(log, n, k, w);
      var j: nat :| LastAddAt(log, n, k, j) && log[j].op.w == w;
    }
  }

  lemma {:induction false} LegalAt(log: seq<LogEntry>, i: nat)
    requires Legal(log) && i < |log|
    ensures log[i].result == Answer(FlatAfter(log[..i]), log[i].op)
    decreases |log|
  {
    hide FlatAfter, Answer;
    var n := |log| - 1;
    if i < n {
      LegalAt(log[..n], i);
      assert log[..n][..i] == log[..i];
    }
  }

  // ---------- what each lookup tells ----------

  // The rollout added last under cluster, identity and environment, if it stands.
  ghost predicate TellsFound(log: seq<LogEntry>, n: nat, key: Key, found: Option<Workload>) {
    var k := Key(ToLower(key.cluster), ToLower(key.identity), ToLower(key.env));
    forall w :: found == Some(w) <==> Stands(log, n, k, w)
  }

  // All that stand for the identity in the cluster, by environment.
  ghost predicate TellsHeld(log: seq<LogEntry>, n: nat, c: string, id: string, entry: Option<Entry>) {
    && (entry.None? ==> forall env, w :: !Stands(log, n, Key(c, id, env), w))
    && (entry.Some? ==>
          entry.value.identity == id && entry.value.items != map[]
          && forall env, w :: (env in entry.value.items && entry.value.items[env] == Item(w, c))
                              <==> Stands(log, n, Key(c, id, env), w))
    && (entry.Some? ==> forall env <- entry.value.items :: entry.value.items[env].clusterID == c)
  }

  // All that stand for the identity, in every cluster and environment.
  ghost predicate TellsListed(log: seq<LogEntry>, n: nat, id: string, items: FlatMap) {
    && (forall k, w :: (k in items && items[k] == Item(w, k.cluster)) <==> k.identity == id && Stands(log, n, k, w))
    && forall k <- items :: items[k].clusterID == k.cluster
  }

  // How many stand.
  ghost predicate TellsSize(log: seq<LogEntry>, n: nat, size: nat) {
    exists keys: set<Key> :: |keys| == size && forall k :: k in keys <==> SomeStands(log, n, k)
  }

  ghost predicate Tells(log: seq<LogEntry>, n: nat, op: Op, r: Result) {
    match op
    case GetOp(k) => r.Found? && TellsFound(log, n, k, r.w)
    case EntryOp(c, id) => r.Held? && TellsHeld(log, n, ToLower(c), ToLower(id), r.entry)
    case ListOp(id) => r.Listed? && TellsListed(log, n, ToLower(id), r.items)
    case CountOp => r.Size? && TellsSize(log, n, r.size)
    case _ => r == Done
  }

  lemma HeldTells(log: seq<LogEntry>, n: nat, c: string, id: string)
    requires n <= |log|
    ensures var items := ItemsAt(FlatAfter(log[..n]), c, id);
            TellsHeld(log, n, c, id, if items == map[] then None else Some(Entry(id, items)))
  {
    hide Stands, FlatAfter;
    var f := FlatAfter(log[..n]);
    forall env
      ensures (env in ItemsAt(f, c, id) <==> Key(c, id, env) in f)
      ensures forall w :: Stands(log, n, Key(c, id, env), w) <==> GetFlat(f, Key(c, id, env)) == Some(Item(w, c))
      ensures Key(c, id, env) in f ==> f[Key(c, id, env)].clusterID == c
    {
      FlatIsWhatStands(log, n, Key(c, id, env));
    }
  }

  lemma ListedTells(log: seq<LogEntry>, n: nat, id: string)
    requires n <= |log|
    ensures var f := FlatAfter(log[..n]); TellsListed(log, n, id, map k | k in f && k.identity == id :: f[k])
  {
    hide Stands, FlatAfter;
    forall k ensures forall w :: Stands(log, n, k, w) <==> GetFlat(FlatAfter(log[..n]), k) == Some(Item(w, k.cluster))
             ensures k in FlatAfter(log[..n]) ==> FlatAfter(log[..n])[k].clusterID == k.cluster
    {
      FlatIsWhatStands(log, n, k);
    }
  }

  lemma SizeTells(log: seq<LogEntry>, n: nat)
    requires n <= |log|
    ensures TellsSize(log, n, |FlatAfter(log[..n])|)
  {
    hide Stands, FlatAfter;
    var f := FlatAfter(log[..n]);
    forall k ensures k in f.Keys <==> SomeStands(log, n, k) {
      FlatIsWhatStands(log, n, k);
      if k in f { assert Stands(log, n, k, f[k].workload); }
    }
    assert |f| == |f.Keys|;
  }

  lemma LookupsTell(log: seq<LogEntry>, i: nat)
    requires Legal(log) && i < |log|
    ensures Tells(log, i, log[i].op, log[i].result)
  {
    hide Stands, FlatAfter, TellsHeld, TellsListed, TellsSize;
    LegalAt(log, i);
    match log[i].op {
      case GetOp(k) => FlatIsWhatStands(log, i, Key(ToLower(k.cluster), ToLower(k.identity), ToLower(k.env)));
      case EntryOp(c, id) => HeldTells(log, i, ToLower(c), ToLower(id));
      case ListOp(id) => ListedTells(log, i, ToLower(id));
      case CountOp => SizeTells(log, i);
      case _ =>
    }
  }

  // Whatever threads do: every finished lookup was answered by what stood at one
  // moment between its call and its return.
  lemma EveryLookupTells(threads: nat, actions: seq<Action>, d: Completed)
    requires AllEnabled(Initial(threads), actions) && d in Run(Initial(threads), actions).done
    ensures var s := Run(Initial(threads), actions);
            d.inv <= d.lin < d.resp <= |s.log| && Tells(s.log, d.lin, d.op, d.result)
  {
    EveryRunLinearizable(threads, actions);
    LookupsTell(Run(Initial(threads), actions).log, d.lin);
  }
}
