// Selecting a worker count from measured arms (scripts/benchmark_matrix_concurrency.py).
module WorkerPolicy {
  import opened Common

  datatype Plan = Plan(runtime: string, workers: int, tiers: seq<string>)

  datatype Arm = Arm(
    plan: Plan,
    passing: int, failed: int, incomplete: int, interrupted: int, notStarted: int,
    effective: Option<int>,
    rowTotals: map<string, int>,
    rows: map<string, set<string>>,
    tierWorkers: map<string, int>,
    wallSeconds: real,
    gatePassed: bool)
  {
    function RequiredRows(): int { passing + failed + incomplete + interrupted + notStarted }

    predicate Complete() { incomplete == 0 && interrupted == 0 && notStarted == 0 }

    // Rows of the whole declared work per hour of wall time.
    function Rate(): real {
      if wallSeconds <= 0.0 || RequiredRows() <= 0 then 0.0
      else RequiredRows() as real / wallSeconds * 3600.0
    }
  }

  const RUNTIMES: seq<string> := ["source", "native"]
  const REQUIRED_TIERS: seq<string> := ["battle", "trade"]

  datatype Reason =
    | ReferenceNotDeclared(smallest: int)
    | TiersNotMeasured(plan: Plan)
    | NoResult(runtime: string, workers: int)
    | NotDeclared(plan: Plan)
    | DuplicateArm(plan: Plan)
    | RowsUnfinished(plan: Plan)
    | RowsFailed(plan: Plan)
    | NothingPassed(plan: Plan)
    | RowIdsDisagree(plan: Plan)
    | OutcomesMissing(plan: Plan)
    | OutcomesExceed(plan: Plan)
    | Clamped(plan: Plan)
    | TierClamped(plan: Plan)
    | NoCeiling(plan: Plan)
    | GateNotPassed(plan: Plan)
    | NotComparable(runtime: string)
    | RuntimesDiffer

  datatype Ranking = Ranking(reference: Option<Arm>, best: Arm)

  datatype Outcome =
    | NoCountsDeclared
    | Refused(reasons: seq<Reason>)
    | NothingImproved(ranking: map<string, Ranking>)
    | Disagreement(winners: set<int>, ranking: map<string, Ranking>)
    | Selected(workers: int, ranking: map<string, Ranking>)

  // ----------------------------------------------------- what one arm must show

  ghost function SumOver(m: map<string, int>, keys: set<string>): int
    requires keys <= m.Keys
  {
    if keys == {} then 0 else var k :| k in keys; m[k] + SumOver(m, keys - {k})
  }

  lemma {:induction false} SumTakesAny(m: map<string, int>, keys: set<string>, k: string)
    requires keys <= m.Keys && k in keys
    ensures SumOver(m, keys) == m[k] + SumOver(m, keys - {k})
  {
    var j :| j in keys && SumOver(m, keys) == m[j] + SumOver(m, keys - {j});
    if j != k {
      SumTakesAny(m, keys - {j}, k);
      SumTakesAny(m, keys - {k}, j);
      assert keys - {j} - {k} == keys - {k} - {j};
    }
  }

  ghost function DeclaredRows(a: Arm): int { SumOver(a.rowTotals, a.rowTotals.Keys) }

  predicate CoversTiers(a: Arm) { forall t :: t in REQUIRED_TIERS ==> t in a.plan.tiers }

  function RowsOf(a: Arm, tier: string): set<string> { if tier in a.rows then a.rows[tier] else {} }

  predicate RowIdsMatch(a: Arm) {
    forall t :: t in a.rowTotals ==> a.rowTotals[t] == 0 || |RowsOf(a, t)| == a.rowTotals[t]
  }

  predicate Unclamped(a: Arm) {
    a.effective == Some(a.plan.workers) && forall t :: t in a.tierWorkers ==> a.tierWorkers[t] == a.plan.workers
  }

  // An arm finished and passed all its declared work at the concurrency asked for.
  ghost predicate Sound(a: Arm) {
    && a.Complete() && a.failed == 0 && a.passing > 0
    && RowIdsMatch(a)
    && (DeclaredRows(a) != 0 ==> a.RequiredRows() == DeclaredRows(a))
    && Unclamped(a)
    && a.gatePassed
  }

  // What an arm's own numbers must be, number by number.
  lemma SoundExactly(a: Arm)
    ensures Sound(a) <==>
      && a.incomplete == 0 && a.interrupted == 0 && a.notStarted == 0 && a.failed == 0 && a.passing > 0
      && a.gatePassed && a.effective == Some(a.plan.workers)
      && (forall t :: t in a.tierWorkers ==> a.tierWorkers[t] == a.plan.workers)
      && (forall t :: t in a.rowTotals && a.rowTotals[t] != 0 ==>
            a.rowTotals[t] == if t in a.rows then |a.rows[t]| else 0)
      && (SumOver(a.rowTotals, a.rowTotals.Keys) != 0 ==> a.passing == SumOver(a.rowTotals, a.rowTotals.Keys))
  {
    hide SumOver;
  }

  // ------------------------------------------------- what the arms show together

  datatype Identity = Identity(
    runtime: string, tiers: set<string>, required: int, rowTotals: map<string, int>, rows: map<string, set<string>>)

  function IdentityOf(a: Arm): Identity {
    Identity(a.plan.runtime, (set t | t in a.plan.tiers), a.RequiredRows(), a.rowTotals, a.rows)
  }

  predicate RowsRecorded(a: Arm) {
    (forall t :: t in a.plan.tiers ==> RowsOf(a, t) != {}) && a.rowTotals != map[]
  }

  predicate Comparable(arms: seq<Arm>) {
    |arms| < 2 || forall a :: a in arms ==> IdentityOf(a) == IdentityOf(arms[0]) && RowsRecorded(a)
  }

  function ArmsOf(results: seq<Arm>, runtime: string): (arms: seq<Arm>)
    ensures forall a :: a in arms <==> a in results && a.plan.runtime == runtime
  {
    if results == [] then []
    else
      var rest, last := ArmsOf(results[..|results| - 1], runtime), results[|results| - 1];
      assert results == results[..|results| - 1] + [last];
      if last.plan.runtime == runtime then rest + [last] else rest
  }

  // The tiers and row ids measured by a runtime's arms.
  function Shape(arms: seq<Arm>): set<(string, set<string>)> {
    set a, t | a in arms && t in a.rows :: (t, a.rows[t])
  }

  function Runtimes(results: seq<Arm>): set<string> { set a | a in results :: a.plan.runtime }

  ghost predicate SameMatrix(results: seq<Arm>) {
    forall x, y :: x in Runtimes(results) && y in Runtimes(results) ==>
      Shape(ArmsOf(results, x)) == Shape(ArmsOf(results, y))
  }

  predicate Measured(results: seq<Arm>, runtime: string, workers: int) {
    exists a :: a in results && a.plan.runtime == runtime && a.plan.workers == workers
  }

  ghost predicate OneArmEach(results: seq<Arm>) {
    forall i, j :: 0 <= i < j < |results| ==>
      results[i].plan.runtime != results[j].plan.runtime || results[i].plan.workers != results[j].plan.workers
  }

  // Evidence that may justify a policy: every declared arm of every runtime, once
  // each, sound, over one and the same matrix, including the workers=1 reference.
  ghost predicate Admissible(results: seq<Arm>, declared: set<int>) {
    && 1 in declared && (forall w :: w in declared ==> w >= 1)
    && (forall a :: a in results ==> CoversTiers(a) && a.plan.workers in declared && Sound(a))
    && (forall rt, w :: rt in RUNTIMES && w in declared ==> Measured(results, rt, w))
    && OneArmEach(results)
    && (forall rt :: rt in Runtimes(results) ==> Comparable(ArmsOf(results, rt)))
    && SameMatrix(results)
  }

  // Two arms of one runtime measured the same tiers, rows and totals, and recorded rows
  // for each of their tiers.
  lemma MeasuredAlike(results: seq<Arm>, a: Arm, b: Arm)
    requires a in results && b in results && a != b && a.plan.runtime == b.plan.runtime
    requires Comparable(ArmsOf(results, a.plan.runtime))
    ensures a.rows == b.rows && a.rowTotals == b.rowTotals && a.rowTotals != map[]
    ensures forall t :: t in a.plan.tiers <==> t in b.plan.tiers
    ensures forall t :: t in a.plan.tiers ==> t in a.rows && a.rows[t] != {}
    ensures a.passing + a.failed + a.incomplete + a.interrupted + a.notStarted
      == b.passing + b.failed + b.incomplete + b.interrupted + b.notStarted
  {
    var arms := ArmsOf(results, a.plan.runtime);
    assert a in arms && b in arms;
    TwoMembers(arms, a, b);
    hide ArmsOf;
    assert IdentityOf(a) == IdentityOf(arms[0]) && IdentityOf(b) == IdentityOf(arms[0]) && RowsRecorded(a);
    assert forall t :: t in a.plan.tiers <==> t in IdentityOf(a).tiers;
    assert forall t :: t in b.plan.tiers <==> t in IdentityOf(b).tiers;
  }

  lemma TwoMembers<T>(s: seq<T>, a: T, b: T)
    requires a in s && b in s && a != b
    ensures |s| >= 2
  {
  }

  // ------------------------------------------------------------------- ranking

  // Faster first; of equally fast arms the one with fewer workers.
  predicate Ahead(a: Arm, b: Arm) {
    a.Rate() > b.Rate() || (a.Rate() == b.Rate() && a.plan.workers <= b.plan.workers)
  }

  ghost predicate BestOf(results: seq<Arm>, runtime: string, best: Arm) {
    best in results && best.plan.runtime == runtime
    && forall b :: b in results && b.plan.runtime == runtime ==> Ahead(best, b)
  }

  ghost predicate Improves(results: seq<Arm>, runtime: string) {
    exists best, reference :: BestOf(results, runtime, best)
      && reference in results && reference.plan.runtime == runtime && reference.plan.workers == 1
      && best.Rate() > reference.Rate()
  }

  // The count that ranks first in every runtime, at least one of which it improves.
  ghost predicate Winner(results: seq<Arm>, w: int) {
    && (forall rt :: rt in Runtimes(results) ==> exists best :: BestOf(results, rt, best) && best.plan.workers == w)
    && (exists rt :: rt in Runtimes(results) && Improves(results, rt))
  }

  ghost predicate Outpaces(results: seq<Arm>, a: Arm) {
    forall b :: b in results && b.plan.runtime == a.plan.runtime && b.plan.workers != a.plan.workers ==>
      if b.plan.workers < a.plan.workers then a.Rate() > b.Rate() else a.Rate() >= b.Rate()
  }

  // In every runtime the arm with this count is strictly faster than every arm with
  // fewer workers and no slower than any with more.
  ghost predicate Beats(results: seq<Arm>, w: int) {
    forall rt :: rt in Runtimes(results) ==>
      exists a :: a in results && a.plan.runtime == rt && a.plan.workers == w && Outpaces(results, a)
  }

  lemma UniqueArm(results: seq<Arm>, a: Arm, b: Arm)
    requires OneArmEach(results) && a in results && b in results
    requires a.plan.runtime == b.plan.runtime && a.plan.workers == b.plan.workers
    ensures a == b
  {
  }

  // Ranking first means outpacing, since no two arms share a runtime and a count.
  lemma BestOutpaces(results: seq<Arm>, a: Arm)
    requires OneArmEach(results) && a in results
    ensures BestOf(results, a.plan.runtime, a) <==> Outpaces(results, a)
  {
    forall b | b in results && b.plan.runtime == a.plan.runtime && b.plan.workers == a.plan.workers ensures b == a {
      UniqueArm(results, a, b);
    }
    hide OneArmEach, Arm.Rate;
    assert BestOf(results, a.plan.runtime, a) ==>
      forall b :: b in results && b.plan.runtime == a.plan.runtime ==> Ahead(a, b);
  }

  // On admissible evidence the rule picks exactly the counts of at least two that
  // beat the other counts in every runtime. The workers=1 reference is among the
  // smaller counts wherever it ran, and both required runtimes ran it.
  lemma WinnerExactly(results: seq<Arm>, declared: set<int>, w: int)
    requires Admissible(results, declared)
    ensures Winner(results, w) <==> w >= 2 && Beats(results, w)
  {
    hide Sound, SameMatrix, Comparable, CoversTiers, Improves, Outpaces, BestOf, OneArmEach, Arm.Rate;
    forall rt | rt in Runtimes(results)
      ensures (exists a :: BestOf(results, rt, a) && a.plan.workers == w)
        <==> (exists a :: a in results && a.plan.runtime == rt && a.plan.workers == w && Outpaces(results, a))
    {
      BestIsMember(results, rt);
      forall a | a in results && a.plan.runtime == rt ensures BestOf(results, rt, a) <==> Outpaces(results, a) {
        BestOutpaces(results, a);
      }
    }
    if Winner(results, w) { WinnerIsNotReference(results, declared, w); }
    if w >= 2 && Beats(results, w) { BeatingImproves(results, declared, w); }
  }

  lemma BestIsMember(results: seq<Arm>, rt: string)
    ensures forall a :: BestOf(results, rt, a) ==> a in results && a.plan.runtime == rt
  {
  }

  lemma WinnerIsNotReference(results: seq<Arm>, declared: set<int>, w: int)
    requires Admissible(results, declared) && Winner(results, w)
    ensures w >= 2
  {
    hide Sound, SameMatrix, Comparable, CoversTiers, Measured, Arm.Rate;
    var rt :| rt in Runtimes(results) && Improves(results, rt);
    var best, reference :| BestOf(results, rt, best) && reference in results && reference.plan.runtime == rt
      && reference.plan.workers == 1 && best.Rate() > reference.Rate();
    var first :| BestOf(results, rt, first) && first.plan.workers == w;
    assert Ahead(first, best);
    if w == 1 { UniqueArm(results, first, reference); }
  }

  lemma BeatingImproves(results: seq<Arm>, declared: set<int>, w: int)
    requires Admissible(results, declared) && w >= 2 && Beats(results, w)
    ensures exists rt :: rt in Runtimes(results) && Improves(results, rt)
  {
    hide Sound, SameMatrix, Comparable, Arm.Rate, CoversTiers, OneArmEach;
    var rt := RUNTIMES[0];
    assert rt in RUNTIMES && Measured(results, rt, 1);
    var reference :| reference in results && reference.plan.runtime == rt && reference.plan.workers == 1;
    assert rt in Runtimes(results);
    var a :| a in results && a.plan.runtime == rt && a.plan.workers == w && Outpaces(results, a);
    BestOutpaces(results, a);
    assert Improves(results, rt);
  }

  // Over equal work the faster of two sound arms is the one that took less time; an arm
  // that took none has no rate.
  lemma FasterIsSooner(a: Arm, b: Arm)
    requires Sound(a) && Sound(b) && a.passing == b.passing
    ensures a.Rate() > b.Rate() <==> a.wallSeconds > 0.0 && (b.wallSeconds <= 0.0 || a.wallSeconds < b.wallSeconds)
    ensures a.Rate() >= b.Rate() <==>
      b.wallSeconds <= 0.0 || (a.wallSeconds > 0.0 && a.wallSeconds <= b.wallSeconds)
  {
    SoundExactly(a);
    SoundExactly(b);
    hide Sound, SumOver;
    var n := a.passing as real;
    if a.wallSeconds > 0.0 && b.wallSeconds > 0.0 { Quotients(n, a.wallSeconds, b.wallSeconds); }
    if a.wallSeconds > 0.0 { Positive(n, a.wallSeconds); }
    if b.wallSeconds > 0.0 { Positive(n, b.wallSeconds); }
  }

  lemma Positive(n: real, x: real)
    requires n > 0.0 && x > 0.0
    ensures n / x > 0.0
  {
  }

  lemma Quotients(n: real, x: real, y: real)
    requires n > 0.0 && x > 0.0 && y > 0.0
    ensures n / x > n / y <==> x < y
    ensures n / x == n / y <==> x == y
  {
    assert n / x > n / y <==> n * y > n * x;
    assert n / x == n / y <==> n * y == n * x;
  }

  // The arm `a` did the work of `b` in less time, or in no more if `b` has more workers.
  predicate Sooner(a: Arm, b: Arm) {
    && a.plan.runtime == b.plan.runtime && a.passing == b.passing
    && if b.plan.workers < a.plan.workers then a.wallSeconds > 0.0 && (b.wallSeconds <= 0.0 || a.wallSeconds < b.wallSeconds)
       else b.wallSeconds <= 0.0 || (a.wallSeconds > 0.0 && a.wallSeconds <= b.wallSeconds)
  }

  // What a winner is, in seconds: in every runtime an arm with its count took less time
  // than every arm with fewer workers and no more than any arm with more.
  lemma WinnerInSeconds(results: seq<Arm>, declared: set<int>, w: int)
    requires Admissible(results, declared) && Winner(results, w)
    ensures forall b :: b in results && b.plan.workers != w ==>
      exists a :: a in results && a.plan.workers == w && Sooner(a, b)
  {
    WinnerExactly(results, declared, w);
    hide Sound, SameMatrix, CoversTiers, Winner, Arm.Rate, OneArmEach, Comparable, Measured;
    forall b | b in results && b.plan.workers != w
      ensures exists a :: a in results && a.plan.workers == w && Sooner(a, b)
    {
      assert b.plan.runtime in Runtimes(results);
      var a :| a in results && a.plan.runtime == b.plan.runtime && a.plan.workers == w && Outpaces(results, a);
      MeasuredAlike(results, a, b);
      SoundExactly(a);
      SoundExactly(b);
      FasterIsSooner(a, b);
      assert Sooner(a, b);
    }
  }

  // No more than one count can win, so the choice is determined by the evidence.
  lemma OneWinner(results: seq<Arm>, declared: set<int>, w: int, w': int)
    requires Admissible(results, declared) && Winner(results, w) && Winner(results, w')
    ensures w == w'
  {
    hide Sound, SameMatrix, Comparable, Arm.Rate, CoversTiers, OneArmEach, Measured;
    var rt :| rt in Runtimes(results) && Improves(results, rt);
    var a :| BestOf(results, rt, a) && a.plan.workers == w;
    var b :| BestOf(results, rt, b) && b.plan.workers == w';
    assert Ahead(a, b) && Ahead(b, a);
  }

  // ------------------------------------------------ one matrix for all the arms

  // Whatever wins was measured everywhere on the same non-empty row ids: every two
  // arms, of whatever runtime and count, recorded identical rows in every tier.
  lemma SameRowsEverywhere(results: seq<Arm>, declared: set<int>, w: int, a: Arm, b: Arm)
    requires Admissible(results, declared) && Winner(results, w) && a in results && b in results
    ensures a.rows == b.rows
    ensures forall t :: t in REQUIRED_TIERS ==> RowsOf(a, t) != {}
  {
    hide Admissible, Winner, ShapeIs;
    WinnerIsNotReference(results, declared, w);
    WinnerIsDeclared(results, declared, w);
    RowsFollowShape(results, declared, a);
    RowsFollowShape(results, declared, b);
    EqualShapes(results, declared, a, b);
    var c :| c in results && c.plan.runtime == RUNTIMES[0] && c.plan.workers == 1;
    RowsFollowShape(results, declared, c);
    EqualShapes(results, declared, a, c);
    ReferenceRecordsRows(results, declared, w, c);
  }

  lemma WinnerIsDeclared(results: seq<Arm>, declared: set<int>, w: int)
    requires Admissible(results, declared) && Winner(results, w)
    ensures w in declared
    ensures exists c :: c in results && c.plan.runtime == RUNTIMES[0] && c.plan.workers == 1
  {
    hide Sound, SameMatrix, Comparable, Arm.Rate, CoversTiers, OneArmEach;
    var rt :| rt in Runtimes(results) && Improves(results, rt);
    var first :| BestOf(results, rt, first) && first.plan.workers == w;
    assert RUNTIMES[0] in RUNTIMES;
    assert Measured(results, RUNTIMES[0], 1);
  }

  ghost predicate ShapeIs(results: seq<Arm>, a: Arm) {
    forall t, rs :: (t, rs) in Shape(ArmsOf(results, a.plan.runtime)) <==> t in a.rows && a.rows[t] == rs
  }

  // A runtime's shape is the recorded rows of any of its arms.
  lemma RowsFollowShape(results: seq<Arm>, declared: set<int>, a: Arm)
    requires Admissible(results, declared) && a in results
    ensures ShapeIs(results, a)
  {
    hide Sound, SameMatrix, OneArmEach, Arm.Rate, CoversTiers, Measured, ArmsOf;
    var arms := ArmsOf(results, a.plan.runtime);
    assert a.plan.runtime in Runtimes(results);
    assert Comparable(arms);
    forall b | b in arms ensures b.rows == a.rows {
      if |arms| >= 2 {
        assert IdentityOf(a) == IdentityOf(arms[0]) && IdentityOf(b) == IdentityOf(arms[0]);
      } else {
        assert arms == [a];
      }
    }
    forall t, rs ensures (t, rs) in Shape(arms) <==> t in a.rows && a.rows[t] == rs {
      if t in a.rows && a.rows[t] == rs { assert a in arms; }
    }
  }

  lemma EqualShapes(results: seq<Arm>, declared: set<int>, a: Arm, b: Arm)
    requires Admissible(results, declared) && a in results && b in results
    requires ShapeIs(results, a) && ShapeIs(results, b)
    ensures a.rows == b.rows
  {
    hide Sound, OneArmEach, Arm.Rate, CoversTiers, Measured, ArmsOf, Comparable, Shape;
    assert a.plan.runtime in Runtimes(results) && b.plan.runtime in Runtimes(results);
    var shape := Shape(ArmsOf(results, a.plan.runtime));
    forall t | t in a.rows ensures t in b.rows && b.rows[t] == a.rows[t] { assert (t, a.rows[t]) in shape; }
    forall t | t in b.rows ensures t in a.rows { assert (t, b.rows[t]) in shape; }
  }

  // The reference has a sibling arm, so its rows had to be recorded.
  lemma ReferenceRecordsRows(results: seq<Arm>, declared: set<int>, w: int, c: Arm)
    requires Admissible(results, declared) && w in declared && w >= 2
    requires c in results && c.plan.runtime == RUNTIMES[0] && c.plan.workers == 1
    ensures forall t :: t in REQUIRED_TIERS ==> RowsOf(c, t) != {}
  {
    hide Sound, SameMatrix, OneArmEach, Arm.Rate, ArmsOf, RowsOf;
    var rt := RUNTIMES[0];
    assert rt in RUNTIMES && Measured(results, rt, w);
    var d :| d in results && d.plan.runtime == rt && d.plan.workers == w;
    var arms := ArmsOf(results, rt);
    assert rt in Runtimes(results);
    assert c in arms && d in arms && c != d;
    var i, j :| 0 <= i < |arms| && 0 <= j < |arms| && arms[i] == c && arms[j] == d;
    assert i != j;
    assert RowsRecorded(c) && CoversTiers(c);
  }

  // ------------------------------------------------- the order of the results

  lemma {:induction false} OfOneRuntime(results: seq<Arm>, rt: string, a: Arm)
    ensures multiset(ArmsOf(results, rt))[a] == if a.plan.runtime == rt then multiset(results)[a] else 0
  {
    if results != [] {
      OfOneRuntime(results[..|results| - 1], rt, a);
      assert results == results[..|results| - 1] + [results[|results| - 1]];
    }
  }

  lemma SameMembers(xs: seq<Arm>, ys: seq<Arm>)
    requires multiset(xs) == multiset(ys)
    ensures |xs| == |ys| && forall a :: a in xs <==> a in ys
  {
    assert forall a :: a in xs <==> a in multiset(xs);
    assert forall a :: a in ys <==> a in multiset(ys);
    assert |multiset(xs)| == |xs| && |multiset(ys)| == |ys|;
  }

  lemma ComparableReordered(xs: seq<Arm>, ys: seq<Arm>)
    requires multiset(xs) == multiset(ys) && Comparable(xs)
    ensures Comparable(ys)
  {
    hide RowsRecorded, IdentityOf;
    SameMembers(xs, ys);
    if |ys| >= 2 { assert ys[0] in ys && IdentityOf(ys[0]) == IdentityOf(xs[0]); }
  }

  // Each arm alone in its runtime and count, said without positions.
  ghost predicate AloneEach(results: seq<Arm>) {
    && (forall a :: a in multiset(results) ==> multiset(results)[a] == 1)
    && forall a, b | a in multiset(results) && b in multiset(results) ::
         a.plan.runtime == b.plan.runtime && a.plan.workers == b.plan.workers ==> a == b
  }

  lemma AloneOnce(results: seq<Arm>)
    ensures OneArmEach(results) <==> AloneEach(results)
  {
    if OneArmEach(results) {
      forall a | a in multiset(results) ensures multiset(results)[a] == 1 {
        var i :| 0 <= i < |results| && results[i] == a;
        OnceIfDistinct(results, i);
      }
    }
    if AloneEach(results) {
      forall i, j | 0 <= i < j < |results| && results[i].plan.runtime == results[j].plan.runtime
        && results[i].plan.workers == results[j].plan.workers
        ensures false
      {
        assert results[i] in multiset(results) && results[j] in multiset(results);
        TwiceIfRepeated(results, i, j);
      }
    }
  }

  lemma OnceIfDistinct(results: seq<Arm>, i: nat)
    requires i < |results| && forall j :: 0 <= j < |results| && j != i ==> results[j] != results[i]
    ensures multiset(results)[results[i]] == 1
  {
    assert results == results[..i] + [results[i]] + results[i + 1..];
    assert results[i] !in results[..i] && results[i] !in results[i + 1..];
  }

  lemma TwiceIfRepeated(results: seq<Arm>, i: nat, j: nat)
    requires i < j < |results| && results[i] == results[j]
    ensures multiset(results)[results[i]] >= 2
  {
    assert results == results[..i] + [results[i]] + results[i + 1..j] + [results[j]] + results[j + 1..];
  }

  // Reordering the results changes neither admissibility nor the winning count.
  lemma OrderIsIrrelevant(xs: seq<Arm>, ys: seq<Arm>, declared: set<int>, w: int)
    requires multiset(xs) == multiset(ys)
    ensures Admissible(xs, declared) <==> Admissible(ys, declared)
    ensures Winner(xs, w) <==> Winner(ys, w)
  {
    if Admissible(xs, declared) { ReorderedAdmissible(xs, ys, declared); }
    if Admissible(ys, declared) { ReorderedAdmissible(ys, xs, declared); }
    if Winner(xs, w) { ReorderedWinner(xs, ys, w); }
    if Winner(ys, w) { ReorderedWinner(ys, xs, w); }
    hide Admissible, Winner;
  }

  lemma ReorderedWinner(xs: seq<Arm>, ys: seq<Arm>, w: int)
    requires multiset(xs) == multiset(ys) && Winner(xs, w)
    ensures Winner(ys, w)
  {
    SameMembers(xs, ys);
    hide Arm.Rate, Ahead;
    assert Runtimes(xs) == Runtimes(ys);
    forall rt, a | BestOf(xs, rt, a) ensures BestOf(ys, rt, a) {}
    forall rt | Improves(xs, rt) ensures Improves(ys, rt) {}
  }

  lemma ReorderedAdmissible(xs: seq<Arm>, ys: seq<Arm>, declared: set<int>)
    requires multiset(xs) == multiset(ys) && Admissible(xs, declared)
    ensures Admissible(ys, declared)
  {
    hide Sound, CoversTiers, ArmsOf, Comparable, OneArmEach, Shape;
    SameMembers(xs, ys);
    assert Runtimes(xs) == Runtimes(ys);
    AloneOnce(xs);
    AloneOnce(ys);
    hide AloneEach;
    forall rt ensures Shape(ArmsOf(xs, rt)) == Shape(ArmsOf(ys, rt)) && Comparable(ArmsOf(xs, rt)) == Comparable(ArmsOf(ys, rt)) {
      ReorderedRuntime(xs, ys, rt);
    }
    forall rt, w | rt in RUNTIMES && w in declared ensures Measured(ys, rt, w) { assert Measured(xs, rt, w); }
  }

  lemma ReorderedRuntime(xs: seq<Arm>, ys: seq<Arm>, rt: string)
    requires multiset(xs) == multiset(ys)
    ensures Shape(ArmsOf(xs, rt)) == Shape(ArmsOf(ys, rt))
    ensures Comparable(ArmsOf(xs, rt)) == Comparable(ArmsOf(ys, rt))
  {
    var old', new' := ArmsOf(xs, rt), ArmsOf(ys, rt);
    forall a ensures multiset(old')[a] == multiset(new')[a] {
      OfOneRuntime(xs, rt, a);
      OfOneRuntime(ys, rt, a);
    }
    assert multiset(old') == multiset(new');
    SameMembers(old', new');
    hide Comparable, ArmsOf;
    if Comparable(old') { ComparableReordered(old', new'); }
    if Comparable(new') { ComparableReordered(new', old'); }
  }

  // ---------------------------------------------------- beating the reference arm

  // An arm of this runtime and count is strictly faster than the runtime's workers=1 arm.
  predicate FasterThanReference(results: seq<Arm>, rt: string, w: int) {
    exists a, reference :: (a in results && reference in results
      && a.plan.runtime == rt && reference.plan.runtime == rt
      && a.plan.workers == w && reference.plan.workers == 1 && a.Rate() > reference.Rate())
  }

  predicate BeatsReference(results: seq<Arm>, w: int) {
    forall rt :: rt in Runtimes(results) ==> FasterThanReference(results, rt, w)
  }

  // A winner beats the reference everywhere exactly when every runtime measured one.
  lemma ReferenceBeatenExactly(results: seq<Arm>, declared: set<int>, w: int)
    requires Admissible(results, declared) && Winner(results, w)
    ensures BeatsReference(results, w) <==> forall rt :: rt in Runtimes(results) ==> Measured(results, rt, 1)
  {
    WinnerExactly(results, declared, w);
    hide Admissible, Winner, Arm.Rate;
    if forall rt :: rt in Runtimes(results) ==> Measured(results, rt, 1) {
      forall rt | rt in Runtimes(results) ensures FasterThanReference(results, rt, w) {
        var a :| a in results && a.plan.runtime == rt && a.plan.workers == w && Outpaces(results, a);
        assert Measured(results, rt, 1);
        var reference :| reference in results && reference.plan.runtime == rt && reference.plan.workers == 1;
        assert a.Rate() > reference.Rate();
      }
    }
  }

  // Over the runtimes the benchmark knows, a winner always beats the reference.
  lemma KnownRuntimesBeatReference(results: seq<Arm>, declared: set<int>, w: int)
    requires Admissible(results, declared) && Winner(results, w)
    requires forall rt :: rt in Runtimes(results) ==> rt in RUNTIMES
    ensures BeatsReference(results, w)
  {
    hide Sound, SameMatrix, Comparable, CoversTiers, OneArmEach, Winner, BeatsReference;
    ReferenceBeatenExactly(results, declared, w);
  }

  // ------------------------------------------------------ runtimes nobody declared

  lemma JoinedAlone(results: seq<Arm>, extra: Arm)
    requires OneArmEach(results) && extra.plan.runtime !in Runtimes(results)
    ensures OneArmEach(results + [extra])
  {
    var all := results + [extra];
    forall i, j | 0 <= i < j < |all|
      ensures all[i].plan.runtime != all[j].plan.runtime || all[i].plan.workers != all[j].plan.workers
    {
      assert all[i] in results;
    }
  }

  lemma JoinedArms(results: seq<Arm>, extra: Arm, rt: string)
    requires extra.plan.runtime !in Runtimes(results)
    ensures ArmsOf(results + [extra], rt) == if rt == extra.plan.runtime then [extra] else ArmsOf(results, rt)
  {
    assert (results + [extra])[..|results|] == results;
    if rt == extra.plan.runtime {
      if ArmsOf(results, rt) != [] {
        assert ArmsOf(results, rt)[0] in ArmsOf(results, rt);
      }
    }
  }

  lemma JoinedWinner(results: seq<Arm>, w: int, extra: Arm)
    requires Winner(results, w) && extra.plan.runtime !in Runtimes(results) && extra.plan.workers == w
    ensures Winner(results + [extra], w)
  {
    var all := results + [extra];
    hide Arm.Rate;
    assert forall a :: a in all <==> a in results || a == extra;
    assert Runtimes(all) == Runtimes(results) + {extra.plan.runtime};
    forall rt, a | BestOf(results, rt, a) ensures BestOf(all, rt, a) {}
    assert BestOf(all, extra.plan.runtime, extra);
    var rt :| rt in Runtimes(results) && Improves(results, rt);
    assert Improves(all, rt);
  }

  lemma JoinedShape(results: seq<Arm>, declared: set<int>, extra: Arm, rt: string)
    requires Admissible(results, declared) && results != []
    requires extra.plan.runtime !in Runtimes(results) && extra.rows == results[0].rows
    requires rt in Runtimes(results + [extra])
    ensures Shape(ArmsOf(results + [extra], rt)) == Shape(ArmsOf(results, results[0].plan.runtime))
  {
    hide Sound, OneArmEach, ArmsOf, Measured, CoversTiers, Comparable;
    JoinedArms(results, extra, rt);
    var shape := Shape(ArmsOf(results, results[0].plan.runtime));
    RowsFollowShape(results, declared, results[0]);
    if rt == extra.plan.runtime {
      forall t, rs ensures (t, rs) in shape <==> (t, rs) in Shape([extra]) {
        if t in extra.rows { assert extra in [extra]; }
      }
      assert shape == Shape([extra]);
    } else {
      assert results[0] in results;
      assert rt in Runtimes(results);
    }
  }

  // The selection itself does not refuse an arm of a runtime the benchmark does not
  // know. Such an arm needs no reference, so it joins any winning evidence at the
  // winning count, and the winner no longer beats workers=1 in every runtime.
  lemma UnknownRuntimeJoins(results: seq<Arm>, declared: set<int>, w: int, extra: Arm)
    requires Admissible(results, declared) && Winner(results, w) && results != []
    requires extra.plan.runtime !in Runtimes(results) && extra.plan.workers == w
    requires CoversTiers(extra) && Sound(extra) && extra.rows == results[0].rows
    ensures Admissible(results + [extra], declared) && Winner(results + [extra], w)
    ensures !Measured(results + [extra], extra.plan.runtime, 1) && !BeatsReference(results + [extra], w)
  {
    hide Sound, CoversTiers, ArmsOf, Shape, Winner, OneArmEach, Comparable, Arm.Rate;
    WinnerIsNotReference(results, declared, w);
    WinnerIsDeclared(results, declared, w);
    var all := results + [extra];
    assert forall a :: a in all <==> a in results || a == extra;
    assert Runtimes(all) == Runtimes(results) + {extra.plan.runtime};
    JoinedAlone(results, extra);
    JoinedWinner(results, w, extra);
    forall rt | rt in Runtimes(all)
      ensures Shape(ArmsOf(all, rt)) == Shape(ArmsOf(results, results[0].plan.runtime)) && Comparable(ArmsOf(all, rt))
    {
      JoinedShape(results, declared, extra, rt);
      JoinedArms(results, extra, rt);
      assert Comparable([extra]) by { AloneIsComparable(extra); }
    }
    forall rt, v | rt in RUNTIMES && v in declared ensures Measured(all, rt, v) { assert Measured(results, rt, v); }
  }

  lemma AloneIsComparable(a: Arm)
    ensures Comparable([a])
  {
  }

  // ------------------------------------------------------ evidence that is enough

  // One clean arm over a matrix of one battle and one trade row.
  function CleanArm(runtime: string, workers: int, seconds: real): Arm {
    Arm(Plan(runtime, workers, REQUIRED_TIERS), 2, 0, 0, 0, 0, Some(workers),
        map["battle" := 1, "trade" := 1], map["battle" := {"b"}, "trade" := {"t"}],
        map["battle" := workers, "trade" := workers], seconds, true)
  }

  function CleanRun(one: real, two: real): seq<Arm> {
    [CleanArm("source", 1, one), CleanArm("source", 2, two), CleanArm("native", 1, one), CleanArm("native", 2, two)]
  }

  lemma CleanArmSound(runtime: string, workers: int, seconds: real)
    ensures Sound(CleanArm(runtime, workers, seconds)) && CoversTiers(CleanArm(runtime, workers, seconds))
    ensures RowsRecorded(CleanArm(runtime, workers, seconds))
  {
    var a := CleanArm(runtime, workers, seconds);
    var m := a.rowTotals;
    assert m.Keys == {"battle", "trade"};
    SumTakesAny(m, m.Keys, "battle");
    SumTakesAny(m, m.Keys - {"battle"}, "trade");
    assert m.Keys - {"battle"} - {"trade"} == {};
  }

  lemma ArmsOfFour(a: Arm, b: Arm, c: Arm, d: Arm, rt: string)
    ensures ArmsOf([a, b, c, d], rt) ==
      (if a.plan.runtime == rt then [a] else []) + (if b.plan.runtime == rt then [b] else [])
      + (if c.plan.runtime == rt then [c] else []) + (if d.plan.runtime == rt then [d] else [])
  {
    assert [a, b, c, d][..3] == [a, b, c] && [a, b, c][..2] == [a, b] && [a, b][..1] == [a] && [a][..0] == [];
    assert ArmsOf([a], rt) == if a.plan.runtime == rt then [a] else [];
    assert ArmsOf([a, b], rt) == ArmsOf([a], rt) + if b.plan.runtime == rt then [b] else [];
    assert ArmsOf([a, b, c], rt) == ArmsOf([a, b], rt) + if c.plan.runtime == rt then [c] else [];
  }

  lemma CleanRunMembers(one: real, two: real)
    ensures var r := CleanRun(one, two);
      && Runtimes(r) == {"source", "native"}
      && ArmsOf(r, "source") == [CleanArm("source", 1, one), CleanArm("source", 2, two)]
      && ArmsOf(r, "native") == [CleanArm("native", 1, one), CleanArm("native", 2, two)]
  {
    var r := CleanRun(one, two);
    assert "source"[0] != "native"[0];
    ArmsOfFour(r[0], r[1], r[2], r[3], "source");
    ArmsOfFour(r[0], r[1], r[2], r[3], "native");
    assert r == [r[0], r[1], r[2], r[3]];
    assert r[0] in r && r[2] in r;
    hide ArmsOf;
  }

  // Clean arms over one matrix, at one and two workers in both runtimes, are admissible
  // evidence, and select two workers exactly when two are faster.
  lemma CleanRunSelects(one: real, two: real)
    requires one > 0.0 && two > 0.0
    ensures Admissible(CleanRun(one, two), {1, 2})
    ensures Winner(CleanRun(one, two), 2) <==> two < one
  {
    var r := CleanRun(one, two);
    CleanRunMembers(one, two);
    CleanRunAdmissible(one, two);
    CleanRates(one, two);
    hide Admissible, CleanArm, Arm.Rate, Sound;
    WinnerExactly(r, {1, 2}, 2);
    CleanRunBeats(one, two);
  }

  lemma CleanRates(one: real, two: real)
    requires one > 0.0 && two > 0.0
    ensures forall rt :: CleanArm(rt, 2, two).Rate() > CleanArm(rt, 1, one).Rate() <==> two < one
  {
    assert 2.0 / two > 2.0 / one <==> two < one;
  }

  lemma CleanRunAdmissible(one: real, two: real)
    ensures Admissible(CleanRun(one, two), {1, 2})
  {
    CleanEach(one, two);
    CleanMeasured(one, two);
    CleanAlone(one, two);
    CleanMatrix(one, two);
    hide CleanRun, Sound, CoversTiers, Measured, OneArmEach, Comparable, ArmsOf, SameMatrix, Runtimes;
  }

  lemma CleanEach(one: real, two: real)
    ensures forall a :: a in CleanRun(one, two) ==> CoversTiers(a) && a.plan.workers in {1, 2} && Sound(a)
  {
    forall a | a in CleanRun(one, two) ensures CoversTiers(a) && a.plan.workers in {1, 2} && Sound(a) {
      CleanArmSound(a.plan.runtime, a.plan.workers, a.wallSeconds);
    }
  }

  lemma CleanMeasured(one: real, two: real)
    ensures forall rt, w :: rt in RUNTIMES && w in {1, 2} ==> Measured(CleanRun(one, two), rt, w)
  {
    var r := CleanRun(one, two);
    assert r[0] in r && r[1] in r && r[2] in r && r[3] in r;
    forall rt, w | rt in RUNTIMES && w in {1, 2} ensures Measured(r, rt, w) {
      if rt == "source" { assert r[w - 1].plan == Plan("source", w, REQUIRED_TIERS); }
      else { assert r[w + 1].plan == Plan("native", w, REQUIRED_TIERS); }
    }
  }

  lemma CleanAlone(one: real, two: real)
    ensures OneArmEach(CleanRun(one, two))
  {
    assert "source"[0] != "native"[0];
  }

  lemma CleanMatrix(one: real, two: real)
    ensures var r := CleanRun(one, two);
      SameMatrix(r) && forall rt :: rt in Runtimes(r) ==> Comparable(ArmsOf(r, rt))
  {
    CleanRunMembers(one, two);
    CleanComparable("source", one, two);
    CleanComparable("native", one, two);
    hide ArmsOf, Comparable, Shape, CleanRun, CleanArm, Runtimes;
  }

  lemma CleanComparable(rt: string, one: real, two: real)
    ensures Comparable([CleanArm(rt, 1, one), CleanArm(rt, 2, two)])
    ensures Shape([CleanArm(rt, 1, one), CleanArm(rt, 2, two)]) == {("battle", {"b"}), ("trade", {"t"})}
  {
    CleanArmSound(rt, 1, one);
    CleanArmSound(rt, 2, two);
    var arms := [CleanArm(rt, 1, one), CleanArm(rt, 2, two)];
    assert arms[0] in arms;
    assert forall a :: a in arms ==> a.rows == map["battle" := {"b"}, "trade" := {"t"}];
    assert "battle" in arms[0].rows && "trade" in arms[0].rows;
  }

  lemma CleanRunBeats(one: real, two: real)
    requires one > 0.0 && two > 0.0
    ensures Beats(CleanRun(one, two), 2) <==> two < one
  {
    var r := CleanRun(one, two);
    CleanRunMembers(one, two);
    CleanRates(one, two);
    assert "source"[0] != "native"[0];
    assert r[1] in r && r[3] in r && r[0] in r;
    hide Arm.Rate, ArmsOf;
    if two < one {
      assert Outpaces(r, r[1]) && Outpaces(r, r[3]);
    } else {
      assert !Outpaces(r, r[1]);
      assert forall a :: a in r && a.plan.runtime == "source" && a.plan.workers == 2 ==> a == r[1];
    }
  }

  // The least such evidence: four clean arms, two workers twice as fast as one, and a
  // two-worker arm of a third runtime.
  function ThirdRuntimeRun(): seq<Arm> { CleanRun(2.0, 1.0) + [CleanArm("third", 2, 1.0)] }

  lemma ThirdRuntimeSelected()
    ensures Admissible(ThirdRuntimeRun(), {1, 2}) && Winner(ThirdRuntimeRun(), 2)
    ensures !BeatsReference(ThirdRuntimeRun(), 2)
  {
    ThirdRuntimeFits();
    hide *;
    CleanRunSelects(2.0, 1.0);
    CleanArmSound("third", 2, 1.0);
    UnknownRuntimeJoins(CleanRun(2.0, 1.0), {1, 2}, 2, CleanArm("third", 2, 1.0));
  }

  lemma ThirdRuntimeFits()
    ensures var four, extra := CleanRun(2.0, 1.0), CleanArm("third", 2, 1.0);
      && ThirdRuntimeRun() == four + [extra] && four != [] && extra.rows == four[0].rows
      && extra.plan.workers == 2 && extra.plan.runtime !in Runtimes(four)
  {
    CleanRunMembers(2.0, 1.0);
    assert "third"[0] != "source"[0] && "third"[0] != "native"[0];
    hide ArmsOf, Runtimes;
  }
}
