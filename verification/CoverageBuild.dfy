// Building the report step by step (scripts/_coverage_report_build.py): the problem
// list, the check reports and the dimension counters, proved against CoverageReport.
module CoverageBuild {
  import opened Common
  import opened CoverageResults
  import opened CoverageReport

  datatype Problem =
    | CatalogInvalid | DimensionUndeclared(dimension: Dimension) | UnknownFixture(c: Case)
    | MissingPairing(selector: string) | UndeclaredPairing(selector: string)
    | MissingRuntime(c: Case, runtime: string) | MissingRole(c: Case)
    | CollectionFailure | SourcePartial | IdentityConflict(conflict: Conflict) | CommitMismatch | CommitMissing
    | CommitUnconfirmed | MixedBuilds | InputsOrEffect(report: CheckReport) | NoResults

  datatype Report = Report(
    complete: bool, problems: seq<Problem>, checks: seq<CheckReport>, pairing: DimensionStatus, mechanics: DimensionStatus)

  // ------------------------------------------------------------------ problems

  method CaseProblems(c: Case) returns (problems: seq<Problem>)
    ensures problems == [] <==> c.knownFixture && RuntimesComplete(c) && c.rolesComplete
  {
    problems := if c.knownFixture then [] else [UnknownFixture(c)];
    for i := 0 to |MANDATORY|
      invariant problems == [] <==> c.knownFixture && forall j :: 0 <= j < i ==> MANDATORY[j] in c.runtimes
    {
      if MANDATORY[i] !in c.runtimes {
        problems := problems + [MissingRuntime(c, MANDATORY[i])];
      }
    }
    if !c.rolesComplete {
      problems := problems + [MissingRole(c)];
    }
  }

  method AllCaseProblems(cases: seq<Case>) returns (problems: seq<Problem>)
    ensures problems == [] <==> forall c :: c in cases ==> c.knownFixture && RuntimesComplete(c) && c.rolesComplete
  {
    hide RuntimesComplete;
    problems := [];
    for i := 0 to |cases|
      invariant problems == [] <==>
        forall c :: c in cases[..i] ==> c.knownFixture && RuntimesComplete(c) && c.rolesComplete
    {
      var more := CaseProblems(cases[i]);
      problems := problems + more;
    }
    assert cases[..|cases|] == cases;
  }

  method EachSelector(selectors: set<string>, undeclared: bool) returns (problems: seq<Problem>)
    ensures problems == [] <==> selectors == {}
  {
    problems := [];
    var rest := selectors;
    while rest != {}
      invariant rest <= selectors
      invariant problems == [] <==> rest == selectors
      decreases |rest|
    {
      var s :| s in rest;
      problems := problems + [if undeclared then UndeclaredPairing(s) else MissingPairing(s)];
      rest := rest - {s};
    }
  }

  // Selectors the matrix has and the catalog lacks, and the other way round.
  method PairingProblems(declared: set<string>, expected: set<string>) returns (problems: seq<Problem>)
    ensures problems == [] <==> declared == expected
  {
    var missing := EachSelector(expected - declared, false);
    var extra := EachSelector(declared - expected, true);
    problems := missing + extra;
    NothingLeft(expected, declared);
    NothingLeft(declared, expected);
  }

  lemma NothingLeft(a: set<string>, b: set<string>)
    ensures a - b == {} <==> a <= b
  {
    if a - b == {} {
      forall x | x in a ensures x in b { assert x !in a - b; }
    }
  }

  method SourceProblems(r: Results, expected: Option<string>) returns (problems: seq<Problem>)
    ensures problems == [] <==> SourceClean(r, expected)
  {
    hide Revisions, OutcomeCommits;
    problems := [];
    if r.collectionFailed { problems := problems + [CollectionFailure]; }
    if r.partial { problems := problems + [SourcePartial]; }
    var conflicts := ConflictProblems(r.conflicts);
    problems := problems + conflicts;
    var commits := CommitProblems(r, expected);
    problems := problems + commits;
    if |Revisions(r)| > 1 { problems := problems + [MixedBuilds]; }
  }

  method ConflictProblems(conflicts: set<Conflict>) returns (problems: seq<Problem>)
    ensures problems == [] <==> conflicts == {}
  {
    problems := [];
    var rest := conflicts;
    while rest != {}
      invariant rest <= conflicts
      invariant problems == [] <==> rest == conflicts
      decreases |rest|
    {
      var c :| c in rest;
      problems := problems + [IdentityConflict(c)];
      rest := rest - {c};
    }
  }

  method CommitProblems(r: Results, expected: Option<string>) returns (problems: seq<Problem>)
    ensures problems == [] <==>
      && !r.missingCommit
      && (expected.Some? && r.commit.Some? ==> r.commit == expected)
      && (expected.Some? && r.commit == None ==> OutcomeCommits(r.outcomes) != {})
  {
    hide OutcomeCommits;
    problems := [];
    if expected.Some? && r.commit.Some? && r.commit != expected { problems := problems + [CommitMismatch]; }
    if r.missingCommit { problems := problems + [CommitMissing]; }
    if expected.Some? && r.commit == None && OutcomeCommits(r.outcomes) == {} {
      problems := problems + [CommitUnconfirmed];
    }
  }

  method CatalogProblems(catalog: Catalog) returns (problems: seq<Problem>)
    ensures problems == [] <==> CatalogClean(catalog)
  {
    hide DeclarationError, RuntimesComplete, DeclaredPairing;
    problems := if CatalogValid(catalog) then [] else [CatalogInvalid];
    if Pairing !in catalog.dimensions { problems := problems + [DimensionUndeclared(Pairing)]; }
    if Mechanics !in catalog.dimensions { problems := problems + [DimensionUndeclared(Mechanics)]; }
    var cases := AllCaseProblems(catalog.cases);
    var pairing := PairingProblems(DeclaredPairing(catalog.cases), catalog.expectedPairing);
    problems := problems + cases + pairing;
    assert problems == [] ==> cases == [] && pairing == [];
  }

  // ------------------------------------------------------------------ checks

  // A check that evaluated as tested and then failed on its inputs or its effect.
  predicate FailedLate(catalog: Catalog, c: Case, rt: string, results: Option<Results>, expected: Option<string>)
    requires c.selector.Some?
  {
    && CheckStatus(catalog, c, rt, results, expected) != Tested && !Discredited(catalog, c) && results.Some?
    && EvaluateCase(rt, Lookup(results.value, rt, c.selector.value), results.value, expected, catalog.policy, c.selector.value)
       == Tested
  }

  predicate SomeUntested(checks: seq<CheckReport>) { exists r :: r in checks && r.status != Tested }

  method CheckRuntimes(catalog: Catalog, c: Case, results: Option<Results>, expected: Option<string>)
    returns (checks: seq<CheckReport>, problems: seq<Problem>)
    ensures checks == ReportsOf(catalog, c, c.runtimes, results, expected)
    ensures problems != [] ==> SomeUntested(checks)
  {
    hide CheckStatus, FailedLate, SomeUntested;
    checks, problems := [], [];
    if c.selector == None {
      return;
    }
    for i := 0 to |c.runtimes|
      invariant checks == ReportsOf(catalog, c, c.runtimes[..i], results, expected)
      invariant problems != [] ==> SomeUntested(checks)
    {
      assert c.runtimes[..i + 1][..i] == c.runtimes[..i];
      var status := CheckStatus(catalog, c, c.runtimes[i], results, expected);
      var check := CheckReport(c.caseId, c.dimension, c.selector.value, c.runtimes[i], status);
      UntestedGrows(checks, [check]);
      LateIsUntested(catalog, c, c.runtimes[i], results, expected);
      checks := checks + [check];
      if FailedLate(catalog, c, c.runtimes[i], results, expected) {
        problems := problems + [InputsOrEffect(check)];
      }
    }
    assert c.runtimes[..|c.runtimes|] == c.runtimes;
  }

  lemma LateIsUntested(catalog: Catalog, c: Case, rt: string, results: Option<Results>, expected: Option<string>)
    requires c.selector.Some?
    ensures FailedLate(catalog, c, rt, results, expected) ==> CheckStatus(catalog, c, rt, results, expected) != Tested
  {
    hide CheckStatus, EvaluateCase, Lookup, Discredited;
  }

  lemma UntestedGrows(a: seq<CheckReport>, b: seq<CheckReport>)
    ensures SomeUntested(a + b) <==> SomeUntested(a) || SomeUntested(b)
    ensures forall r :: SomeUntested([r]) <==> r.status != Tested
  {
    assert forall r :: r in a + b <==> r in a || r in b;
    forall r ensures SomeUntested([r]) <==> r.status != Tested { assert r in [r]; }
  }

  method CheckCases(catalog: Catalog, results: Option<Results>, expected: Option<string>)
    returns (checks: seq<CheckReport>, problems: seq<Problem>)
    ensures checks == Reports(catalog, catalog.cases, results, expected)
    ensures problems != [] ==> SomeUntested(checks)
  {
    hide ReportsOf, SomeUntested;
    checks, problems := [], [];
    var cases := catalog.cases;
    for i := 0 to |cases|
      invariant checks == Reports(catalog, cases[..i], results, expected)
      invariant problems != [] ==> SomeUntested(checks)
    {
      assert cases[..i + 1][..i] == cases[..i];
      var more, late := CheckRuntimes(catalog, cases[i], results, expected);
      UntestedGrows(checks, more);
      checks, problems := checks + more, problems + late;
    }
    assert cases[..|cases|] == cases;
  }

  lemma {:induction false} OneCaseStatuses(
      catalog: Catalog, c: Case, runtimes: seq<string>, results: Option<Results>, expected: Option<string>)
    ensures forall r :: r in ReportsOf(catalog, c, runtimes, results, expected) ==> r.status == Tested || IsIncomplete(r.status)
  {
    hide CheckStatus, IsIncomplete;
    if c.selector.Some? && runtimes != [] {
      OneCaseStatuses(catalog, c, runtimes[..|runtimes| - 1], results, expected);
      CheckedStatuses(catalog, c, runtimes[|runtimes| - 1], results, expected);
    }
  }

  lemma {:induction false} AllStatuses(catalog: Catalog, cases: seq<Case>, results: Option<Results>, expected: Option<string>)
    ensures forall r :: r in Reports(catalog, cases, results, expected) ==> r.status == Tested || IsIncomplete(r.status)
  {
    hide ReportsOf, IsIncomplete;
    if cases != [] {
      AllStatuses(catalog, cases[..|cases| - 1], results, expected);
      OneCaseStatuses(catalog, cases[|cases| - 1], cases[|cases| - 1].runtimes, results, expected);
    }
  }

  // ------------------------------------------------------------------ dimensions

  method DimensionStatusOf(dimension: Dimension, reports: seq<CheckReport>) returns (status: DimensionStatus)
    ensures status == DimensionComplete <==> AllTested(reports, dimension)
    ensures status == DimensionMissing <==> forall r :: r in reports ==> r.dimension != dimension
  {
    var relevant, incomplete := 0, 0;
    for i := 0 to |reports|
      invariant 0 <= incomplete <= relevant
      invariant relevant == 0 <==> forall r :: r in reports[..i] ==> r.dimension != dimension
      invariant incomplete == 0 <==> forall r :: r in reports[..i] && r.dimension == dimension ==> r.status == Tested
    {
      if reports[i].dimension == dimension {
        relevant := relevant + 1;
        if reports[i].status != Tested {
          incomplete := incomplete + 1;
        }
      }
    }
    assert reports[..|reports|] == reports;
    status := if relevant == 0 then DimensionMissing else if incomplete != 0 then DimensionIncomplete else DimensionComplete;
  }

  // The runtimes that reported a mechanics case, and whether all reports were tested.
  datatype Tally = Tally(present: set<string>, allTested: bool)

  ghost predicate TallyOf(t: Tally, reports: seq<CheckReport>, id: string) {
    && (forall rt :: rt in t.present <==>
          exists r :: r in reports && r.dimension == Mechanics && r.caseId == Some(id) && r.runtime == rt)
    && (t.allTested <==> forall r :: r in reports && r.dimension == Mechanics && r.caseId == Some(id) ==> r.status == Tested)
  }

  method GroupByCase(reports: seq<CheckReport>) returns (tallies: map<string, Tally>)
    ensures forall id :: id in tallies ==> TallyOf(tallies[id], reports, id)
    ensures forall r :: r in reports && r.dimension == Mechanics && r.caseId.Some? ==> r.caseId.value in tallies
  {
    tallies := map[];
    for i := 0 to |reports|
      invariant forall id :: id in tallies ==> TallyOf(tallies[id], reports[..i], id)
      invariant forall r :: r in reports[..i] && r.dimension == Mechanics && r.caseId.Some? ==> r.caseId.value in tallies
    {
      var r := reports[i];
      assert reports[..i + 1] == reports[..i] + [r];
      forall id | id in tallies ensures TallyOf(Counted(tallies[id], r, id), reports[..i + 1], id) {
        TallyGrows(tallies[id], reports[..i], r, id);
      }
      if r.dimension == Mechanics && r.caseId.Some? {
        var id := r.caseId.value;
        if id !in tallies {
          NotYetTallied(reports[..i], id);
          TallyGrows(Tally({}, true), reports[..i], r, id);
        }
        var t := if id in tallies then tallies[id] else Tally({}, true);
        tallies := tallies[id := Tally(t.present + {r.runtime}, t.allTested && r.status == Tested)];
      }
    }
    assert reports[..|reports|] == reports;
  }

  ghost function Counted(t: Tally, r: CheckReport, id: string): Tally {
    if r.dimension == Mechanics && r.caseId == Some(id) then Tally(t.present + {r.runtime}, t.allTested && r.status == Tested)
    else t
  }

  lemma TallyGrows(t: Tally, reports: seq<CheckReport>, r: CheckReport, id: string)
    requires TallyOf(t, reports, id)
    ensures TallyOf(Counted(t, r, id), reports + [r], id)
  {
    assert forall x :: x in reports + [r] <==> x in reports || x == r;
  }

  lemma NotYetTallied(reports: seq<CheckReport>, id: string)
    requires forall r :: r in reports ==> r.dimension != Mechanics || r.caseId != Some(id)
    ensures TallyOf(Tally({}, true), reports, id)
  {
  }

  // A mechanics case is credited when every mandatory runtime reported it and all its
  // reports are tested; a case nobody reported is not in the map.
  method VerifiedMechanicsCaseIds(reports: seq<CheckReport>) returns (verified: set<string>)
    ensures forall id :: id in verified <==> Credited(reports, id)
  {
    var tallies := GroupByCase(reports);
    verified := set id | id in tallies && tallies[id].allTested && forall rt :: rt in MANDATORY ==> rt in tallies[id].present;
    forall id ensures id in verified <==> Credited(reports, id) {
      if id in tallies {
        assert TallyOf(tallies[id], reports, id);
      } else {
        assert MANDATORY[0] in MANDATORY;
      }
    }
  }

  method FamilyIsTested(catalog: Catalog, reports: seq<CheckReport>, f: Family, verified: set<string>) returns (b: bool)
    requires forall id :: id in verified <==> Credited(reports, id)
    ensures b == FamilyTested(catalog, reports, f)
  {
    hide Credited, CatalogValid, DeclaredEffect;
    b := f.scope == ScopeTested && CatalogValid(catalog) && f.evidence != []
      && forall id :: id in f.evidence ==> id in verified && DeclaredEffect(catalog.cases, id) == Some(f.effectId);
  }

  lemma TestedIsNotExcluded(catalog: Catalog, reports: seq<CheckReport>, f: Family)
    ensures FamilyTested(catalog, reports, f) ==> f.scope != ScopeExcluded && CatalogValid(catalog)
  {
  }

  // Each effect once, by its first family: tested, excluded, or still only planned.
  method MechanicsStatus(catalog: Catalog, reports: seq<CheckReport>) returns (status: DimensionStatus)
    ensures status == DimensionComplete <==> MechanicsComplete(catalog, reports)
  {
    hide CatalogValid, FamilyTested;
    var verified := VerifiedMechanicsCaseIds(reports);
    var valid := CatalogValid(catalog);
    var tested, planned, excluded := 0, 0, 0;
    var seen: set<int> := {};
    var families := catalog.families;
    for i := 0 to |families|
      invariant 0 <= tested && 0 <= planned
      invariant forall e :: e in seen <==> exists j :: 0 <= j < i && families[j].effectId == e
      invariant tested > 0 <==> exists j :: 0 <= j < i && First(families, j) && FamilyTested(catalog, reports, families[j])
      invariant planned == 0 <==>
        forall j :: 0 <= j < i && First(families, j) ==>
          families[j].scope == ScopeExcluded || FamilyTested(catalog, reports, families[j])
    {
      var f := families[i];
      assert First(families, i) <==> f.effectId !in seen;
      TestedIsNotExcluded(catalog, reports, f);
      if f.effectId !in seen {
        seen := seen + {f.effectId};
        if f.scope == ScopeExcluded {
          excluded := excluded + 1;
        } else {
          var counts := FamilyIsTested(catalog, reports, f, verified);
          if counts {
            tested := tested + 1;
          } else {
            planned := planned + 1;
          }
        }
      }
    }
    status := if !valid then DimensionIncomplete
      else if planned != 0 && tested != 0 then DimensionPartial
      else if planned != 0 then DimensionPlanned
      else if tested != 0 then DimensionComplete
      else DimensionExcluded;
  }

  // ------------------------------------------------------------------ the report

  method BuildReport(catalog: Catalog, results: Option<Results>, expected: Option<string>) returns (report: Report)
    ensures report.checks == Reports(catalog, catalog.cases, results, expected)
    ensures report.pairing == DimensionComplete <==> AllTested(report.checks, Pairing)
    ensures report.mechanics == DimensionComplete <==> MechanicsComplete(catalog, report.checks)
    ensures report.complete <==> Complete(catalog, results, expected)
  {
    hide CatalogClean, SourceClean, MechanicsComplete, AllTested, Reports;
    var problems := CatalogProblems(catalog);
    if results.Some? {
      var more := SourceProblems(results.value, expected);
      problems := problems + more;
    } else {
      problems := problems + [NoResults];
    }
    var checks, late := CheckCases(catalog, results, expected);
    AllStatuses(catalog, catalog.cases, results, expected);
    problems := problems + late;
    var pairing := DimensionStatusOf(Pairing, checks);
    var mechanics := MechanicsStatus(catalog, checks);
    var incomplete := exists r :: r in checks && IsIncomplete(r.status);
    report := Report(
      problems == [] && !incomplete && pairing == DimensionComplete && mechanics == DimensionComplete,
      problems, checks, pairing, mechanics);
  }
}
