// Ranging over a map or a set: every element once, in an order nobody chose.
module Iteration {

  function Elements<T>(s: seq<T>): set<T> { set x <- s }

  predicate NoRepeats<T(==)>(s: seq<T>) { forall i, j :: 0 <= i < j < |s| ==> s[i] != s[j] }

  method InSomeOrder<T(==)>(keys: set<T>) returns (list: seq<T>)
    ensures NoRepeats(list) && Elements(list) == keys
  {
    list := [];
    var rest := keys;
    while rest != {}
      invariant rest <= keys && NoRepeats(list) && Elements(list) == keys - rest
      decreases |rest|
    {
      var d :| d in rest;
      assert d !in Elements(list);
      ghost var before := list;
      list := list + [d];
      assert Elements(list) == Elements(before) + {d};
      rest := rest - {d};
    }
  }

  lemma NoRepeatsConcat<T>(a: seq<T>, b: seq<T>)
    requires NoRepeats(a) && NoRepeats(b) && forall x <- a :: x !in b
    ensures NoRepeats(a + b)
  {
    forall i, j | 0 <= i < j < |a + b| ensures (a + b)[i] != (a + b)[j] {
      if i < |a| <= j { assert a[i] in a && b[j - |a|] in b; }
    }
  }

  lemma DisjointUnion<T>(a: set<T>, b: set<T>)
    requires a !! b
    ensures multiset(a + b) == multiset(a) + multiset(b)
  {
  }

  lemma {:induction false} NoRepeatsElements<T>(s: seq<T>)
    requires NoRepeats(s)
    ensures multiset(s) == multiset(Elements(s))
    decreases |s|
  {
    if s != [] {
      var k := |s| - 1;
      NoRepeatsElements(s[..k]);
      assert s == s[..k] + [s[k]];
      assert Elements(s) == Elements(s[..k]) + {s[k]};
      DisjointUnion(Elements(s[..k]), {s[k]});
    }
  }

  lemma Prefixes<T>(s: seq<T>)
    ensures s[..0] == [] && s[..|s|] == s
    ensures forall i :: 0 <= i < |s| ==> s[..i + 1] == s[..i] + [s[i]]
  {
  }

  // ---------- one element more, anywhere ----------

  function Insert<T>(s: seq<T>, j: nat, x: T): (r: seq<T>)
    requires j <= |s|
    ensures |r| == |s| + 1
  {
    s[..j] + [x] + s[j..]
  }

  lemma InsertAt<T>(s: seq<T>, j: nat, x: T, k: nat)
    requires j <= |s| && k <= |s|
    ensures Insert(s, j, x)[k] == if k < j then s[k] else if k == j then x else s[k - 1]
  {
  }

  lemma InsertHolds<T>(s: seq<T>, j: nat, x: T)
    requires j <= |s|
    ensures multiset(Insert(s, j, x)) == multiset(s) + multiset{x}
    ensures x in Insert(s, j, x) && forall y <- s :: y in Insert(s, j, x)
  {
    assert s == s[..j] + s[j..];
  }

  lemma InsertNoRepeats<T>(s: seq<T>, j: nat, x: T)
    requires j <= |s| && NoRepeats(s) && x !in s
    ensures NoRepeats(Insert(s, j, x))
  {
    var r := Insert(s, j, x);
    forall a: nat, b: nat | a < b < |r| ensures r[a] != r[b] {
      InsertAt(s, j, x, a);
      InsertAt(s, j, x, b);
    }
  }

  // ---------- positions in a list of lists, row by row ----------

  predicate RowByRow(from: seq<(nat, nat)>) {
    forall i, j :: 0 <= i < j < |from| ==> from[i].0 < from[j].0 || (from[i].0 == from[j].0 && from[i].1 < from[j].1)
  }

  function Row(a: nat, n: nat): (r: seq<(nat, nat)>)
    ensures |r| == n && forall b :: 0 <= b < n ==> r[b] == (a, b)
  {
    seq(n, b requires 0 <= b < n => (a, b))
  }

  lemma OneRowMore(from: seq<(nat, nat)>, a: nat, n: nat)
    requires RowByRow(from) && forall p <- from :: p.0 < a
    ensures RowByRow(from + Row(a, n)) && forall p <- from + Row(a, n) :: p.0 < a + 1
  {
    var row := Row(a, n);
    hide Row;
    forall i, j | 0 <= i < j < |from + row|
      ensures var p, q := (from + row)[i], (from + row)[j]; p.0 < q.0 || (p.0 == q.0 && p.1 < q.1)
    {
      if i < |from| <= j { assert from[i] in from; }
    }
  }
}
