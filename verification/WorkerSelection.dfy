// The selection procedure of scripts/benchmark_matrix_concurrency.py, check by check,
// proved against the rules of WorkerPolicy.
module WorkerSelection {
  import opened Common
  import opened WorkerPolicy

  function Min(counts: seq<int>): (m: int)
    requires counts != []
    ensures m in counts && forall w :: w in counts ==> m <= w
  {
    if |counts| == 1 then counts[0]
    else
      var m := Min(counts[..|counts| - 1]);
      assert counts == counts[..|counts| - 1] + [counts[|counts| - 1]];
      if counts[|counts| - 1] < m then counts[|counts| - 1] else m
  }

  // Worker counts in the order given, each once.
  method Distinct(counts: seq<int>) returns (declared: seq<int>)
    ensures forall w :: w in declared <==> w in counts
    ensures forall i, j :: 0 <= i < j < |declared| ==> declared[i] != declared[j]
    ensures counts != [] ==> declared != []
  {
    declared := [];
    for i := 0 to |counts|
      invariant forall w :: w in declared <==> w in counts[..i]
      invariant forall j, k :: 0 <= j < k < |declared| ==> declared[j] != declared[k]
    {
      if counts[i] !in declared {
        declared := declared + [counts[i]];
      }
    }
    assert counts[..|counts|] == counts;
    if counts != [] { assert counts[0] in counts; }
  }

  method CheckTiers(results: seq<Arm>) returns (reasons: seq<Reason>)
    ensures reasons == [] <==> forall a :: a in results ==> CoversTiers(a)
  {
    reasons := [];
    for i := 0 to |results|
      invariant reasons == [] <==> forall a :: a in results[..i] ==> CoversTiers(a)
    {
      if !CoversTiers(results[i]) {
        reasons := reasons + [TiersNotMeasured(results[i].plan)];
      }
    }
    assert results[..|results|] == results;
  }

  method CheckMeasured(results: seq<Arm>, declared: seq<int>) returns (reasons: seq<Reason>)
    ensures reasons == [] <==> forall rt, w :: rt in RUNTIMES && w in declared ==> Measured(results, rt, w)
  {
    hide Measured;
    reasons := [];
    for i := 0 to |RUNTIMES|
      invariant reasons == [] <==> forall j, w :: 0 <= j < i && w in declared ==> Measured(results, RUNTIMES[j], w)
    {
      var missing := CheckMeasuredIn(results, declared, RUNTIMES[i]);
      reasons := reasons + missing;
    }
  }

  method CheckMeasuredIn(results: seq<Arm>, declared: seq<int>, rt: string) returns (reasons: seq<Reason>)
    ensures reasons == [] <==> forall w :: w in declared ==> Measured(results, rt, w)
  {
    hide Measured;
    reasons := [];
    for k := 0 to |declared|
      invariant reasons == [] <==> forall w :: w in declared[..k] ==> Measured(results, rt, w)
    {
      if !Measured(results, rt, declared[k]) {
        reasons := reasons + [NoResult(rt, declared[k])];
      }
    }
    assert declared[..|declared|] == declared;
  }

  method CheckDeclared(results: seq<Arm>, declared: seq<int>) returns (reasons: seq<Reason>)
    ensures reasons == [] <==> forall a :: a in results ==> a.plan.workers in declared
  {
    reasons := [];
    for i := 0 to |results|
      invariant reasons == [] <==> forall a :: a in results[..i] ==> a.plan.workers in declared
    {
      if results[i].plan.workers !in declared {
        reasons := reasons + [NotDeclared(results[i].plan)];
      }
    }
    assert results[..|results|] == results;
  }

  method CheckDuplicates(results: seq<Arm>) returns (reasons: seq<Reason>)
    ensures reasons == [] <==> OneArmEach(results)
  {
    reasons := [];
    var seen: set<(string, int)> := {};
    for i := 0 to |results|
      invariant forall k :: k in seen <==> exists j :: 0 <= j < i && (results[j].plan.runtime, results[j].plan.workers) == k
      invariant reasons == [] <==> OneArmEach(results[..i])
    {
      var key := (results[i].plan.runtime, results[i].plan.workers);
      if key in seen {
        reasons := reasons + [DuplicateArm(results[i].plan)];
      }
      seen := seen + {key};
    }
    assert results[..|results|] == results;
  }

  method SumTotals(m: map<string, int>) returns (total: int)
    ensures total == SumOver(m, m.Keys)
  {
    total := 0;
    var keys := m.Keys;
    while keys != {}
      invariant keys <= m.Keys
      invariant total + SumOver(m, keys) == SumOver(m, m.Keys)
      decreases |keys|
    {
      var k :| k in keys;
      SumTakesAny(m, keys, k);
      total := total + m[k];
      keys := keys - {k};
    }
  }

  // Everything one arm must show, each shortfall a reason of its own.
  method CheckArm(a: Arm) returns (reasons: seq<Reason>)
    ensures reasons == [] <==> Sound(a)
  {
    reasons := [];
    if !a.Complete() { reasons := reasons + [RowsUnfinished(a.plan)]; }
    if a.failed != 0 { reasons := reasons + [RowsFailed(a.plan)]; }
    if a.passing <= 0 { reasons := reasons + [NothingPassed(a.plan)]; }
    if !RowIdsMatch(a) { reasons := reasons + [RowIdsDisagree(a.plan)]; }
    var rows := SumTotals(a.rowTotals);
    if rows != 0 && a.RequiredRows() < rows { reasons := reasons + [OutcomesMissing(a.plan)]; }
    if rows != 0 && a.RequiredRows() > rows { reasons := reasons + [OutcomesExceed(a.plan)]; }
    var clamps := CheckClamps(a);
    reasons := reasons + clamps;
    if !a.gatePassed { reasons := reasons + [GateNotPassed(a.plan)]; }
  }

  method CheckClamps(a: Arm) returns (reasons: seq<Reason>)
    ensures reasons == [] <==> Unclamped(a)
  {
    reasons := [];
    if a.effective.Some? && a.effective.value != a.plan.workers { reasons := reasons + [Clamped(a.plan)]; }
    if (exists t :: t in a.tierWorkers && a.tierWorkers[t] != a.plan.workers) && a.effective == Some(a.plan.workers) {
      reasons := reasons + [TierClamped(a.plan)];
    }
    if a.effective == None { reasons := reasons + [NoCeiling(a.plan)]; }
  }

  method CheckArms(results: seq<Arm>) returns (reasons: seq<Reason>)
    ensures reasons == [] <==> forall a :: a in results ==> Sound(a)
  {
    hide Sound;
    reasons := [];
    for i := 0 to |results|
      invariant reasons == [] <==> forall a :: a in results[..i] ==> Sound(a)
    {
      var more := CheckArm(results[i]);
      reasons := reasons + more;
    }
    assert results[..|results|] == results;
  }

  // Arms grouped by runtime, runtimes in the order they first appear.
  method GroupByRuntime(results: seq<Arm>) returns (order: seq<string>, groups: map<string, seq<Arm>>)
    ensures forall rt :: rt in order <==> rt in Runtimes(results)
    ensures groups.Keys == Runtimes(results)
    ensures forall rt :: rt in groups ==> groups[rt] == ArmsOf(results, rt)
  {
    order, groups := [], map[];
    for i := 0 to |results|
      invariant forall rt :: rt in order <==> rt in Runtimes(results[..i])
      invariant groups.Keys == Runtimes(results[..i])
      invariant forall rt :: rt in groups ==> groups[rt] == ArmsOf(results[..i], rt)
    {
      var rt := results[i].plan.runtime;
      GrowsBy(results, i);
      if rt !in groups {
        order := order + [rt];
        groups := groups[rt := []];
      }
      groups := groups[rt := groups[rt] + [results[i]]];
    }
    assert results[..|results|] == results;
  }

  lemma GrowsBy(results: seq<Arm>, i: nat)
    requires i < |results|
    ensures Runtimes(results[..i + 1]) == Runtimes(results[..i]) + {results[i].plan.runtime}
    ensures forall rt ::
      ArmsOf(results[..i + 1], rt) == ArmsOf(results[..i], rt) + (if results[i].plan.runtime == rt then [results[i]] else [])
    ensures results[i].plan.runtime !in Runtimes(results[..i]) ==> ArmsOf(results[..i], results[i].plan.runtime) == []
  {
    assert results[..i + 1][..i] == results[..i];
    assert results[..i + 1] == results[..i] + [results[i]];
    var arms := ArmsOf(results[..i], results[i].plan.runtime);
    if arms != [] { assert arms[0] in arms; }
  }

  method CheckComparable(results: seq<Arm>, order: seq<string>, groups: map<string, seq<Arm>>)
    returns (reasons: seq<Reason>)
    requires forall rt :: rt in order ==> rt in groups && groups[rt] == ArmsOf(results, rt)
    ensures reasons == [] <==> forall rt :: rt in order ==> Comparable(ArmsOf(results, rt))
  {
    hide Comparable, ArmsOf;
    reasons := [];
    for i := 0 to |order|
      invariant reasons == [] <==> forall j :: 0 <= j < i ==> Comparable(ArmsOf(results, order[j]))
    {
      if !Comparable(groups[order[i]]) {
        reasons := reasons + [NotComparable(order[i])];
      }
    }
  }

  // With more than one runtime, all must have one shape between them.
  method CheckShapes(results: seq<Arm>, groups: map<string, seq<Arm>>) returns (reasons: seq<Reason>)
    requires groups.Keys == Runtimes(results)
    requires forall rt :: rt in groups ==> groups[rt] == ArmsOf(results, rt)
    ensures reasons == [] <==> SameMatrix(results)
  {
    hide Shape, ArmsOf, Runtimes;
    reasons := [];
    if |groups| > 1 {
      var shapes := set rt | rt in groups :: Shape(groups[rt]);
      ShapesAlike(results, groups, shapes);
      if |shapes| > 1 {
        reasons := [RuntimesDiffer];
      }
    } else {
      OnlyRuntime(results, groups);
    }
  }

  lemma OnlyRuntime(results: seq<Arm>, groups: map<string, seq<Arm>>)
    requires groups.Keys == Runtimes(results) && |groups| <= 1
    ensures SameMatrix(results)
  {
    hide Shape, ArmsOf, Runtimes;
    forall x, y | x in groups.Keys && y in groups.Keys ensures x == y { AtMostOne(groups.Keys, x, y); }
  }

  lemma ShapesAlike(results: seq<Arm>, groups: map<string, seq<Arm>>, shapes: set<set<(string, set<string>)>>)
    requires groups.Keys == Runtimes(results)
    requires forall rt :: rt in groups ==> groups[rt] == ArmsOf(results, rt)
    requires shapes == set rt | rt in groups :: Shape(groups[rt])
    ensures |shapes| <= 1 <==> SameMatrix(results)
  {
    hide Shape, ArmsOf, Runtimes;
    if |shapes| <= 1 {
      forall x, y | x in groups.Keys && y in groups.Keys ensures Shape(groups[x]) == Shape(groups[y]) {
        AtMostOne(shapes, Shape(groups[x]), Shape(groups[y]));
      }
    }
    if SameMatrix(results) && shapes != {} {
      var one :| one in shapes;
      assert forall s :: s in shapes ==> s == one;
      assert shapes == {one};
    }
  }

  // The first arm when sorted by falling rate, then rising worker count.
  function First(arms: seq<Arm>): (best: Arm)
    requires arms != []
    ensures best in arms && forall a :: a in arms ==> Ahead(best, a)
  {
    if |arms| == 1 then arms[0]
    else
      var best, last := First(arms[..|arms| - 1]), arms[|arms| - 1];
      assert arms == arms[..|arms| - 1] + [last];
      if Ahead(best, last) then best else last
  }

  function FindReference(arms: seq<Arm>, workers: int): (r: Option<Arm>)
    ensures r.Some? ==> r.value in arms && r.value.plan.workers == workers
    ensures r.None? ==> forall a :: a in arms ==> a.plan.workers != workers
  {
    if arms == [] then None
    else if arms[0].plan.workers == workers then Some(arms[0])
    else FindReference(arms[1..], workers)
  }

  ghost predicate RankedRight(results: seq<Arm>, rt: string, r: Ranking) {
    && BestOf(results, rt, r.best)
    && match r.reference
       case Some(a) => a in results && a.plan.runtime == rt && a.plan.workers == 1
       case None => !Measured(results, rt, 1)
  }

  predicate Improving(r: Ranking) { r.reference.Some? && r.best.Rate() > r.reference.value.Rate() }

  method Rank(results: seq<Arm>, rt: string, arms: seq<Arm>) returns (r: Ranking)
    requires arms == ArmsOf(results, rt) && rt in Runtimes(results)
    ensures RankedRight(results, rt, r)
  {
    hide Arm.Rate, Ahead;
    var some :| some in results && some.plan.runtime == rt;
    assert some in arms;
    r := Ranking(FindReference(arms, 1), First(arms));
  }

  ghost predicate AllRanked(results: seq<Arm>, ranking: map<string, Ranking>) {
    ranking.Keys == Runtimes(results) && forall rt :: rt in ranking ==> RankedRight(results, rt, ranking[rt])
  }

  method RankAll(results: seq<Arm>, order: seq<string>, groups: map<string, seq<Arm>>)
    returns (ranking: map<string, Ranking>)
    requires forall rt :: rt in order <==> rt in Runtimes(results)
    requires forall rt :: rt in order ==> rt in groups && groups[rt] == ArmsOf(results, rt)
    ensures AllRanked(results, ranking)
  {
    hide RankedRight, ArmsOf, Runtimes;
    ranking := map[];
    for i := 0 to |order|
      invariant ranking.Keys == set j | 0 <= j < i :: order[j]
      invariant forall rt :: rt in ranking ==> RankedRight(results, rt, ranking[rt])
    {
      var r := Rank(results, order[i], groups[order[i]]);
      ranking := ranking[order[i] := r];
    }
  }

  lemma MinIsOne(declared: seq<int>)
    requires declared != []
    ensures Min(declared) == 1 <==> 1 in declared && forall w :: w in declared ==> w >= 1
  {
    assert Min(declared) in declared;
  }

  // All the checks, in the order they are made.
  method CheckAll(results: seq<Arm>, declared: seq<int>, order: seq<string>, groups: map<string, seq<Arm>>)
    returns (reasons: seq<Reason>)
    requires declared != []
    requires forall rt :: rt in order <==> rt in Runtimes(results)
    requires groups.Keys == Runtimes(results)
    requires forall rt :: rt in groups ==> groups[rt] == ArmsOf(results, rt)
    ensures reasons == [] <==> Admissible(results, set w | w in declared)
  {
    hide Sound, OneArmEach, SameMatrix, Comparable, ArmsOf, Measured, CoversTiers, Runtimes;
    var smallest := if Min(declared) != 1 then [ReferenceNotDeclared(Min(declared))] else [];
    var tiers := CheckTiers(results);
    var measured := CheckMeasured(results, declared);
    var undeclared := CheckDeclared(results, declared);
    var duplicates := CheckDuplicates(results);
    var arms := CheckArms(results);
    var comparable := CheckComparable(results, order, groups);
    var shapes := CheckShapes(results, groups);
    reasons := smallest + tiers + measured + undeclared + duplicates + arms + comparable + shapes;
    ghost var counts := set w | w in declared;
    MinIsOne(declared);
    assert forall w :: w in counts <==> w in declared;
    assert smallest == [] <==> 1 in counts && forall w :: w in counts ==> w >= 1;
    assert comparable == [] <==> forall rt :: rt in Runtimes(results) ==> Comparable(ArmsOf(results, rt));
    assert measured == [] <==> forall rt, w :: rt in RUNTIMES && w in counts ==> Measured(results, rt, w);
    assert undeclared == [] <==> forall a :: a in results ==> a.plan.workers in counts;
    assert (reasons == []) == (|smallest| + |tiers| + |measured| + |undeclared| + |duplicates| + |arms| + |comparable| + |shapes| == 0);
  }

  // Any two first-ranked arms are equally fast and have the same worker count.
  lemma BestAgree(results: seq<Arm>, rt: string, a: Arm, b: Arm)
    requires BestOf(results, rt, a) && BestOf(results, rt, b)
    ensures a.Rate() == b.Rate() && a.plan.workers == b.plan.workers
  {
    hide Arm.Rate;
    assert Ahead(a, b) && Ahead(b, a);
  }

  lemma ImprovesMeans(results: seq<Arm>, ranking: map<string, Ranking>, rt: string)
    requires OneArmEach(results) && AllRanked(results, ranking) && rt in ranking
    ensures Improves(results, rt) <==> Improving(ranking[rt])
  {
    hide Arm.Rate, Runtimes, OneArmEach;
    var r := ranking[rt];
    assert RankedRight(results, rt, r);
    if Improves(results, rt) {
      var best, reference :| BestOf(results, rt, best) && reference in results && reference.plan.runtime == rt
        && reference.plan.workers == 1 && best.Rate() > reference.Rate();
      BestAgree(results, rt, best, r.best);
      assert Measured(results, rt, 1);
      UniqueArm(results, reference, r.reference.value);
    }
  }

  // Every runtime names the same best count, and some runtime is improved.
  ghost predicate Unanimous(ranking: map<string, Ranking>, w: int) {
    && (forall rt :: rt in ranking ==> ranking[rt].best.plan.workers == w)
    && exists rt :: rt in ranking && Improving(ranking[rt])
  }

  lemma WinnerMeans(results: seq<Arm>, ranking: map<string, Ranking>, w: int)
    requires OneArmEach(results) && AllRanked(results, ranking)
    ensures Winner(results, w) <==> Unanimous(ranking, w)
  {
    hide Arm.Rate, Runtimes, OneArmEach, BestOf, Improves, Improving;
    forall rt | rt in ranking
      ensures Improves(results, rt) <==> Improving(ranking[rt])
      ensures (exists best :: BestOf(results, rt, best) && best.plan.workers == w) <==> ranking[rt].best.plan.workers == w
    {
      ImprovesMeans(results, ranking, rt);
      assert RankedRight(results, rt, ranking[rt]);
      forall best | BestOf(results, rt, best) ensures best.plan.workers == ranking[rt].best.plan.workers {
        BestAgree(results, rt, best, ranking[rt].best);
      }
    }
  }

  // The evidence decides by the rules: refused exactly when not admissible, and a
  // count is selected exactly when it wins. Whatever is not refused ran unclamped at the
  // count asked for, passed every row it declared and passed the gate.
  method SelectPolicy(results: seq<Arm>, workerCounts: seq<int>) returns (o: Outcome)
    ensures o.NoCountsDeclared? <==> workerCounts == []
    ensures workerCounts != [] ==> (o.Refused? <==> !Admissible(results, set w | w in workerCounts))
    ensures o.Selected? ==> Winner(results, o.workers)
    ensures !o.NoCountsDeclared? && !o.Refused? ==> AllRanked(results, o.ranking)
    ensures workerCounts != [] && Admissible(results, set w | w in workerCounts) ==>
      && (forall w :: Winner(results, w) ==> o.Selected? && o.workers == w)
      && (o.NothingImproved? <==> forall rt :: rt in Runtimes(results) ==> !Improves(results, rt))
    ensures !o.NoCountsDeclared? && !o.Refused? ==> forall a :: a in results ==>
      && a.effective == Some(a.plan.workers)
      && (forall t :: t in a.tierWorkers ==> a.tierWorkers[t] == a.plan.workers)
      && a.failed == 0 && a.incomplete == 0 && a.interrupted == 0 && a.notStarted == 0 && a.passing > 0 && a.gatePassed
      && "battle" in a.plan.tiers && "trade" in a.plan.tiers && a.plan.workers in workerCounts && a.plan.workers >= 1
      && (forall t :: t in a.rowTotals && a.rowTotals[t] != 0 ==> a.rowTotals[t] == if t in a.rows then |a.rows[t]| else 0)
      && (SumOver(a.rowTotals, a.rowTotals.Keys) != 0 ==> a.passing == SumOver(a.rowTotals, a.rowTotals.Keys))
  {
    if workerCounts == [] {
      return NoCountsDeclared;
    }
    o := SelectFrom(results, workerCounts);
    if !o.Refused? {
      hide Admissible, Winner, AllRanked, Improves, Runtimes, ArmsOf;
      ArmsAreSound(results, set w | w in workerCounts);
    }
  }

  lemma ArmsAreSound(results: seq<Arm>, declared: set<int>)
    requires Admissible(results, declared)
    ensures forall a :: a in results ==>
      && a.effective == Some(a.plan.workers)
      && (forall t :: t in a.tierWorkers ==> a.tierWorkers[t] == a.plan.workers)
      && a.failed == 0 && a.incomplete == 0 && a.interrupted == 0 && a.notStarted == 0 && a.passing > 0 && a.gatePassed
      && "battle" in a.plan.tiers && "trade" in a.plan.tiers && a.plan.workers in declared && a.plan.workers >= 1
      && (forall t :: t in a.rowTotals && a.rowTotals[t] != 0 ==> a.rowTotals[t] == if t in a.rows then |a.rows[t]| else 0)
      && (SumOver(a.rowTotals, a.rowTotals.Keys) != 0 ==> a.passing == SumOver(a.rowTotals, a.rowTotals.Keys))
  {
    hide Sound, SameMatrix, Comparable, OneArmEach, Measured, SumOver, ArmsOf, Runtimes;
    forall a | a in results
      ensures Sound(a) && "battle" in a.plan.tiers && "trade" in a.plan.tiers && a.plan.workers in declared
    {
      assert CoversTiers(a) && REQUIRED_TIERS[0] in REQUIRED_TIERS && REQUIRED_TIERS[1] in REQUIRED_TIERS;
    }
    forall a | a in results { SoundExactly(a); }
  }

  // One number off in one arm is enough to refuse all the evidence.
  lemma OneNumberOff(results: seq<Arm>, declared: set<int>, a: Arm)
    requires a in results
    requires
      || a.effective != Some(a.plan.workers) || (exists t :: t in a.tierWorkers && a.tierWorkers[t] != a.plan.workers)
      || a.failed != 0 || a.incomplete != 0 || a.interrupted != 0 || a.notStarted != 0 || a.passing <= 0 || !a.gatePassed
      || "battle" !in a.plan.tiers || "trade" !in a.plan.tiers || a.plan.workers !in declared
      || (exists t :: t in a.rowTotals && a.rowTotals[t] != 0 && a.rowTotals[t] != if t in a.rows then |a.rows[t]| else 0)
    ensures !Admissible(results, declared)
  {
    if Admissible(results, declared) {
      ArmsAreSound(results, declared);
      assert false;
    }
  }

  method SelectFrom(results: seq<Arm>, workerCounts: seq<int>) returns (o: Outcome)
    requires workerCounts != []
    ensures !o.NoCountsDeclared? && (o.Refused? <==> !Admissible(results, set w | w in workerCounts))
    ensures o.Selected? ==> Winner(results, o.workers)
    ensures !o.Refused? ==> AllRanked(results, o.ranking)
    ensures Admissible(results, set w | w in workerCounts) ==>
      && (forall w :: Winner(results, w) ==> o.Selected? && o.workers == w)
      && (o.NothingImproved? <==> forall rt :: rt in Runtimes(results) ==> !Improves(results, rt))
  {
    var declared := Distinct(workerCounts);
    assert (set w | w in declared) == (set w | w in workerCounts);
    var order, groups := GroupByRuntime(results);
    var reasons := CheckAll(results, declared, order, groups);
    if reasons != [] {
      return Refused(reasons);
    }
    assert OneArmEach(results);
    hide *;
    var ranking := RankAll(results, order, groups);
    RankingDecides(results, ranking);
    o := Decide(ranking);
  }

  lemma RankingDecides(results: seq<Arm>, ranking: map<string, Ranking>)
    requires OneArmEach(results) && AllRanked(results, ranking)
    ensures forall w :: Winner(results, w) <==> Unanimous(ranking, w)
    ensures (exists rt :: rt in ranking && Improving(ranking[rt]))
      <==> (exists rt :: rt in Runtimes(results) && Improves(results, rt))
  {
    hide OneArmEach, RankedRight, Improves, Improving, Winner, Unanimous, Runtimes;
    forall w ensures Winner(results, w) <==> Unanimous(ranking, w) { WinnerMeans(results, ranking, w); }
    forall rt | rt in ranking ensures Improves(results, rt) <==> Improving(ranking[rt]) {
      ImprovesMeans(results, ranking, rt);
    }
  }

  method Decide(ranking: map<string, Ranking>) returns (o: Outcome)
    ensures !o.NoCountsDeclared? && !o.Refused? && o.ranking == ranking
    ensures o.Selected? ==> Unanimous(ranking, o.workers)
    ensures forall w :: Unanimous(ranking, w) ==> o.Selected? && o.workers == w
    ensures o.NothingImproved? <==> forall rt :: rt in ranking ==> !Improving(ranking[rt])
  {
    hide Improving;
    if forall rt :: rt in ranking ==> !Improving(ranking[rt]) {
      return NothingImproved(ranking);
    }
    var winners := set rt | rt in ranking :: ranking[rt].best.plan.workers;
    assert forall rt :: rt in ranking ==> ranking[rt].best.plan.workers in winners;
    if |winners| > 1 {
      forall w ensures !Unanimous(ranking, w) { NotUnanimous(ranking, winners, w); }
      return Disagreement(winners, ranking);
    }
    var rt :| rt in ranking && Improving(ranking[rt]);
    var w :| w in winners;
    forall x | x in winners ensures x == w { AtMostOne(winners, x, w); }
    o := Selected(w, ranking);
  }

  lemma NotUnanimous(ranking: map<string, Ranking>, winners: set<int>, w: int)
    requires |winners| > 1 && winners == set rt | rt in ranking :: ranking[rt].best.plan.workers
    ensures !Unanimous(ranking, w)
  {
    hide Improving;
    if Unanimous(ranking, w) { assert winners <= {w}; assert |winners| <= |{w}| by { SubsetIsNoLarger(winners, {w}); } }
  }
}
