// A route whose configs refer to each weight of one target group shares out
// exactly that group's total, and when it does not.
module WeightConservation {
  import opened Wrappers
  import opened Iteration
  import opened VirtualService
  import opened RouteDetailing
  import opened RoutingRules

  function NamesOf(ws: seq<Weight>): (r: seq<string>)
    ensures |r| == |ws|
  {
    seq(|ws|, i requires 0 <= i < |ws| => ws[i].name)
  }

  function Total(ws: seq<Weight>): int {
    if ws == [] then 0 else Total(ws[..|ws| - 1]) + ws[|ws| - 1].weight
  }

  function Sum(es: seq<EndpointWeight>): int {
    if es == [] then 0 else Sum(es[..|es| - 1]) + es[|es| - 1].weight
  }

  function AllWeights(tgs: seq<TargetGroup>): seq<Weight> {
    if tgs == [] then [] else AllWeights(tgs[..|tgs| - 1]) + tgs[|tgs| - 1].weights
  }

  function Selectors(infos: seq<RouteTargetInfo>): (r: seq<string>)
    ensures |r| == |infos|
  {
    seq(|infos|, i requires 0 <= i < |infos| => infos[i].targetGroupSelector)
  }

  // ---------- the dial holds every weight ----------

  lemma {:induction false} WeightMapConcat(a: seq<Weight>, b: seq<Weight>)
    ensures WeightMap(a + b) == WeightMap(a) + WeightMap(b)
    decreases |b|
  {
    if b == [] {
      assert a + b == a;
    } else {
      WeightMapConcat(a, b[..|b| - 1]);
      assert (a + b)[..|a + b| - 1] == a + b[..|b| - 1];
    }
  }

  lemma {:induction false} DialIsWeightMap(tgs: seq<TargetGroup>)
    ensures ServiceDial(tgs) == WeightMap(AllWeights(tgs))
    decreases |tgs|
  {
    if tgs != [] {
      DialIsWeightMap(tgs[..|tgs| - 1]);
      WeightMapConcat(AllWeights(tgs[..|tgs| - 1]), tgs[|tgs| - 1].weights);
    }
  }

  lemma {:induction false} UniqueWeightFound(ws: seq<Weight>, k: nat)
    requires NoRepeats(NamesOf(ws)) && k < |ws|
    ensures ws[k].name in WeightMap(ws) && WeightMap(ws)[ws[k].name] == ws[k].weight
    decreases |ws|
  {
    var n := |ws| - 1;
    if k < n {
      assert NoRepeats(NamesOf(ws[..n])) by {
        forall i, j | 0 <= i < j < n ensures NamesOf(ws[..n])[i] != NamesOf(ws[..n])[j] {
          assert NamesOf(ws)[i] != NamesOf(ws)[j];
        }
      }
      UniqueWeightFound(ws[..n], k);
      assert NamesOf(ws)[k] != NamesOf(ws)[n];
    }
  }

  lemma {:induction false} GroupWeightsListed(tgs: seq<TargetGroup>, g: nat, k: nat) returns (i: nat)
    requires g < |tgs| && k < |tgs[g].weights|
    ensures i < |AllWeights(tgs)| && AllWeights(tgs)[i] == tgs[g].weights[k]
    decreases |tgs|
  {
    var n := |tgs| - 1;
    if g == n {
      i := |AllWeights(tgs[..n])| + k;
    } else {
      i := GroupWeightsListed(tgs[..n], g, k);
    }
  }

  // ---------- sums over selectors ----------

  function SumOver(dial: Weights, names: seq<string>): int {
    if names == [] then 0
    else
      var last := names[|names| - 1];
      SumOver(dial, names[..|names| - 1]) + if last in dial then dial[last] else 0
  }

  lemma {:induction false} SumOverConcat(dial: Weights, a: seq<string>, b: seq<string>)
    ensures SumOver(dial, a + b) == SumOver(dial, a) + SumOver(dial, b)
    decreases |b|
  {
    if b == [] {
      assert a + b == a;
    } else {
      SumOverConcat(dial, a, b[..|b| - 1]);
      assert (a + b)[..|a + b| - 1] == a + b[..|b| - 1];
    }
  }

  lemma SumOverWithout(dial: Weights, b: seq<string>, j: nat)
    requires j < |b|
    ensures SumOver(dial, b) == SumOver(dial, b[..j] + b[j + 1..]) + SumOver(dial, [b[j]])
    ensures multiset(b[..j] + b[j + 1..]) == multiset(b) - multiset{b[j]}
  {
    assert b == b[..j] + ([b[j]] + b[j + 1..]);
    SumOverConcat(dial, b[..j], [b[j]] + b[j + 1..]);
    SumOverConcat(dial, [b[j]], b[j + 1..]);
    SumOverConcat(dial, b[..j], b[j + 1..]);
    assert multiset(b) == multiset(b[..j]) + multiset{b[j]} + multiset(b[j + 1..]);
  }

  lemma {:induction false} SumOverPermuted(dial: Weights, a: seq<string>, b: seq<string>)
    requires multiset(a) == multiset(b)
    ensures SumOver(dial, a) == SumOver(dial, b)
    decreases |a|
  {
    if a == [] {
      assert |b| == |multiset(b)| == |multiset(a)| == 0;
    } else {
      var n := |a| - 1;
      assert a[n] in multiset(b);
      var j :| 0 <= j < |b| && b[j] == a[n];
      SumOverWithout(dial, b, j);
      SumOverWithout(dial, a, n);
      assert a[..n] + a[n + 1..] == a[..n];
      SumOverPermuted(dial, a[..n], b[..j] + b[j + 1..]);
    }
  }

  lemma {:induction false} SumOfDialled(dial: Weights, infos: seq<RouteTargetInfo>)
    ensures Sum(Dialled(dial, infos)) == SumOver(dial, Selectors(infos))
    decreases |infos|
  {
    if infos != [] {
      var n := |infos| - 1;
      SumOfDialled(dial, infos[..n]);
      assert Selectors(infos)[..n] == Selectors(infos[..n]);
      var before := Dialled(dial, infos[..n]);
      if infos[n].targetGroupSelector in dial {
        var more := EndpointWeight(infos[n].meshEndpoint, dial[infos[n].targetGroupSelector]);
        assert (before + [more])[..|before + [more]| - 1] == before;
      } else {
        assert before + [] == before;
      }
    }
  }

  lemma {:induction false} SumOfOwnNames(dial: Weights, ws: seq<Weight>)
    requires forall w <- ws :: w.name in dial && dial[w.name] == w.weight
    ensures SumOver(dial, NamesOf(ws)) == Total(ws)
    decreases |ws|
  {
    if ws != [] {
      var n := |ws| - 1;
      SumOfOwnNames(dial, ws[..n]);
      assert NamesOf(ws)[..n] == NamesOf(ws[..n]);
      assert ws[n] in ws;
    }
  }

  // ---------- conservation ----------

  // Weight names differ within and across groups, and the configs refer to each
  // weight of group g once and to nothing else, in any order.
  predicate SharesGroup(infos: seq<RouteTargetInfo>, tgs: seq<TargetGroup>, g: nat) {
    g < |tgs| && NoRepeats(NamesOf(AllWeights(tgs)))
    && multiset(Selectors(infos)) == multiset(NamesOf(tgs[g].weights))
  }

  lemma DialHoldsGroup(tgs: seq<TargetGroup>, g: nat)
    requires g < |tgs| && NoRepeats(NamesOf(AllWeights(tgs)))
    ensures forall w <- tgs[g].weights :: w.name in ServiceDial(tgs) && ServiceDial(tgs)[w.name] == w.weight
  {
    var dial, ws := ServiceDial(tgs), tgs[g].weights;
    DialIsWeightMap(tgs);
    forall w | w in ws ensures w.name in dial && dial[w.name] == w.weight {
      var k :| 0 <= k < |ws| && ws[k] == w;
      var i := GroupWeightsListed(tgs, g, k);
      UniqueWeightFound(AllWeights(tgs), i);
    }
  }

  lemma DialledConserves(infos: seq<RouteTargetInfo>, tgs: seq<TargetGroup>, g: nat)
    requires SharesGroup(infos, tgs, g)
    ensures Sum(Dialled(ServiceDial(tgs), infos)) == Total(tgs[g].weights)
  {
    var dial, ws := ServiceDial(tgs), tgs[g].weights;
    DialHoldsGroup(tgs, g);
    SumOfDialled(dial, infos);
    SumOverPermuted(dial, Selectors(infos), NamesOf(ws));
    SumOfOwnNames(dial, ws);
  }

  lemma SharersMatch(infos: seq<RouteTargetInfo>, tgs: seq<TargetGroup>, g: nat)
    requires SharesGroup(infos, tgs, g)
    ensures |infos| == |tgs[g].weights|
    ensures |infos| == 1 ==> infos[0].targetGroupSelector == tgs[g].weights[0].name
  {
    var ws := tgs[g].weights;
    assert |infos| == |ws| by { assert |multiset(Selectors(infos))| == |multiset(NamesOf(ws))|; }
    if |infos| == 1 {
      assert Selectors(infos) == [infos[0].targetGroupSelector] && NamesOf(ws) == [ws[0].name];
      assert multiset(NamesOf(ws)) == multiset{ws[0].name};
      assert infos[0].targetGroupSelector in multiset(Selectors(infos));
    }
  }

  // The total is kept exactly unless a sole weight without a name is not 100:
  // its config is taken for one without a selector.
  lemma WeightsConserved(infos: seq<RouteTargetInfo>, tgs: seq<TargetGroup>, g: nat)
    requires SharesGroup(infos, tgs, g)
    ensures var ws := tgs[g].weights;
            Sum(ServiceDestinations(ServiceDial(tgs), infos)) == Total(ws)
            <==> !(|ws| == 1 && ws[0].name == "" && ws[0].weight != 100)
  {
    var ws := tgs[g].weights;
    DialledConserves(infos, tgs, g);
    SharersMatch(infos, tgs, g);
    if |infos| == 1 {
      assert Total(ws) == ws[0].weight by { assert ws[..0] == []; }
      var sole := [EndpointWeight(infos[0].meshEndpoint, 100)];
      assert Sum(sole) == 100 by { assert sole[..0] == []; }
    }
  }

  // ---------- in the rule ----------

  function RuleTotal(ds: seq<Destination>): int {
    if ds == [] then 0 else RuleTotal(ds[..|ds| - 1]) + ds[|ds| - 1].weight
  }

  // How often the cast to int32 wraps a weight round, signed.
  function Wraps(w: int): int { (w - Int32(w)) / 0x1_0000_0000 }

  lemma CastWraps(w: int)
    ensures Int32(w) == w - 0x1_0000_0000 * Wraps(w)
    ensures Wraps(w) == 0 <==> -0x8000_0000 <= w < 0x8000_0000
  {
    var m := w % 0x1_0000_0000;
    assert w == 0x1_0000_0000 * (w / 0x1_0000_0000) + m;
  }

  function TotalWraps(ws: seq<Weight>): int {
    if ws == [] then 0 else TotalWraps(ws[..|ws| - 1]) + Wraps(ws[|ws| - 1].weight)
  }

  // The weights a rule carries, counted as wraps like those of the group.
  function SumWraps(es: seq<EndpointWeight>): int {
    if es == [] then 0 else SumWraps(es[..|es| - 1]) + Wraps(es[|es| - 1].weight)
  }

  lemma {:induction false} RuleTotalWraps(es: seq<EndpointWeight>)
    ensures RuleTotal(Destinations(es)) == Sum(es) - 0x1_0000_0000 * SumWraps(es)
    decreases |es|
  {
    if es != [] {
      var n := |es| - 1;
      RuleTotalWraps(es[..n]);
      CastWraps(es[n].weight);
      assert Destinations(es)[..n] == Destinations(es[..n]);
    }
  }

  function WrapsDial(dial: Weights): Weights { map n <- dial :: Wraps(dial[n]) }

  function WrapsOf(ws: seq<Weight>): (r: seq<Weight>)
    ensures |r| == |ws|
  {
    seq(|ws|, i requires 0 <= i < |ws| => Weight(ws[i].name, Wraps(ws[i].weight)))
  }

  lemma {:induction false} SumOfWrapsDialled(dial: Weights, infos: seq<RouteTargetInfo>)
    ensures SumWraps(Dialled(dial, infos)) == SumOver(WrapsDial(dial), Selectors(infos))
    decreases |infos|
  {
    if infos != [] {
      var n := |infos| - 1;
      SumOfWrapsDialled(dial, infos[..n]);
      assert Selectors(infos)[..n] == Selectors(infos[..n]);
      var before := Dialled(dial, infos[..n]);
      if infos[n].targetGroupSelector in dial {
        var more := EndpointWeight(infos[n].meshEndpoint, dial[infos[n].targetGroupSelector]);
        assert (before + [more])[..|before + [more]| - 1] == before;
      } else {
        assert before + [] == before;
      }
    }
  }

  lemma {:induction false} TotalOfWraps(ws: seq<Weight>)
    ensures Total(WrapsOf(ws)) == TotalWraps(ws)
    decreases |ws|
  {
    if ws != [] {
      TotalOfWraps(ws[..|ws| - 1]);
      assert WrapsOf(ws)[..|ws| - 1] == WrapsOf(ws[..|ws| - 1]);
    }
  }

  lemma DialledWraps(infos: seq<RouteTargetInfo>, tgs: seq<TargetGroup>, g: nat)
    requires SharesGroup(infos, tgs, g)
    ensures SumWraps(Dialled(ServiceDial(tgs), infos)) == TotalWraps(tgs[g].weights)
  {
    var dial, ws := ServiceDial(tgs), tgs[g].weights;
    DialHoldsGroup(tgs, g);
    SumOfWrapsDialled(dial, infos);
    assert NamesOf(WrapsOf(ws)) == NamesOf(ws);
    SumOverPermuted(WrapsDial(dial), Selectors(infos), NamesOf(ws));
    forall w | w in WrapsOf(ws) ensures w.name in WrapsDial(dial) && WrapsDial(dial)[w.name] == w.weight {
      var k :| 0 <= k < |ws| && WrapsOf(ws)[k] == w;
      assert ws[k] in ws;
    }
    SumOfOwnNames(WrapsDial(dial), WrapsOf(ws));
    TotalOfWraps(ws);
  }

  lemma SoleDefaultRule(infos: seq<RouteTargetInfo>, dial: Weights)
    requires SoleDefault(infos)
    ensures RuleTotal(Destinations(ServiceDestinations(dial, infos))) == 100
  {
    var ds := Destinations(ServiceDestinations(dial, infos));
    assert ds[..0] == [] && ds[0].weight == 100;
  }

  // The emitted rule, for weights of any size: a sole nameless weight has to be
  // 100; of others the total is kept exactly when the casts to int32 cancel out,
  // as they do when every weight is in range.
  lemma RuleConservesTotal(d: RouteDetails, tc: TrafficConfig, es: EdgeService, route: Route, g: nat)
    requires Targeted(es) && DetailsOf(d, tc, es, route)
    requires SharesGroup(Infos(tc, es.targets, route), es.targetGroups.value, g)
    ensures var ws := es.targetGroups.value[g].weights;
            RuleTotal(ServiceRule(d).route) == Total(ws)
            <==> if |ws| == 1 && ws[0].name == "" then ws[0].weight == 100 else TotalWraps(ws) == 0
  {
    var infos, tgs := Infos(tc, es.targets, route), es.targetGroups.value;
    var ws := tgs[g].weights;
    SharersMatch(infos, tgs, g);
    if SoleDefault(infos) {
      SoleDefaultRule(infos, ServiceDial(tgs));
      assert Total(ws) == ws[0].weight by { assert ws[..0] == []; }
    } else {
      DialledConserves(infos, tgs, g);
      DialledWraps(infos, tgs, g);
      RuleTotalWraps(d.service);
    }
  }

  lemma {:induction false} InRangeNoWraps(ws: seq<Weight>)
    requires forall w <- ws :: -0x8000_0000 <= w.weight < 0x8000_0000
    ensures TotalWraps(ws) == 0
    decreases |ws|
  {
    if ws != [] {
      InRangeNoWraps(ws[..|ws| - 1]);
      assert ws[|ws| - 1] in ws;
      CastWraps(ws[|ws| - 1].weight);
    }
  }
}
