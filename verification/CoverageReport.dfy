// The coverage verdict (scripts/_coverage_report_build.py): which required checks are
// tested, which dimensions are complete, and when the whole report is COMPLETE.
module CoverageReport {
  import opened Common
  import opened CoverageResults

  datatype Dimension = Pairing | Mechanics | OtherDimension(name: string)

  // One declared endpoint asset and the hashes it may have.
  datatype Requirement = Requirement(role: string, kind: string, version: string, accepted: set<string>)

  datatype Case = Case(
    caseId: Option<string>, dimension: Dimension, selector: Option<string>, runtimes: seq<string>,
    knownFixture: bool, rolesComplete: bool, requirements: seq<Requirement>, effect: Option<int>, otherwiseValid: bool)

  datatype Scope = ScopeTested | ScopePlanned | ScopeExcluded | ScopeUnknown

  datatype Family = Family(effectId: int, scope: Scope, evidence: seq<string>)

  datatype Policy = Policy(accepted: Option<seq<Status>>, revision: Option<string>, version: Option<string>)

  datatype Catalog = Catalog(
    cases: seq<Case>, families: seq<Family>, dimensions: set<Dimension>, policy: Policy, expectedPairing: set<string>,
    otherwiseValid: bool)

  // The runtimes the tool itself demands of every case, whatever the catalog says.
  const MANDATORY: seq<string> := ["source", "cython"]

  // ----------------------------------------------------------------- declarations

  predicate DeclarationError(catalog: Catalog, c: Case) {
    || c.caseId == None || c.caseId.value == ""
    || c.dimension !in catalog.dimensions
    || c.runtimes == [] || (exists rt :: rt in c.runtimes && rt !in MANDATORY)
    || !c.knownFixture || c.selector == None || !c.otherwiseValid
  }

  predicate RuntimesComplete(c: Case) { forall rt :: rt in MANDATORY ==> rt in c.runtimes }

  predicate CatalogValid(catalog: Catalog) {
    && catalog.otherwiseValid && Pairing in catalog.dimensions && Mechanics in catalog.dimensions
    && forall c :: c in catalog.cases ==> !DeclarationError(catalog, c) && RuntimesComplete(c)
  }

  // An error in any declaration of a case id discredits every case of that id.
  predicate Discredited(catalog: Catalog, c: Case) {
    c.caseId.Some? && exists e :: e in catalog.cases && e.caseId == c.caseId && DeclarationError(catalog, e)
  }

  predicate IsIncomplete(s: Status) { s != Passed && s != Tested && !s.Other? }

  function Filtered(accepted: seq<Status>): (f: seq<Status>)
    ensures forall s :: s in f <==> s in accepted && s != Tested && !IsIncomplete(s)
  {
    if accepted == [] then []
    else
      var rest, last := Filtered(accepted[..|accepted| - 1]), accepted[|accepted| - 1];
      assert accepted == accepted[..|accepted| - 1] + [last];
      if last != Tested && !IsIncomplete(last) then rest + [last] else rest
  }

  // Declared outcomes count only if they can mean a pass; with none left, `passed`.
  function Accepted(policy: Policy): seq<Status> {
    if policy.accepted.Some? && Filtered(policy.accepted.value) != [] then Filtered(policy.accepted.value) else [Passed]
  }

  function IncompleteLabel(s: Status): Status { if IsIncomplete(s) then s else Unaccepted }

  // ------------------------------------------------------------------ one check

  // A runtime's collections qualify a selector when there are some, all passed, and
  // the selector was collected; any failed collection anywhere disqualifies.
  predicate Collected(r: Results, runtime: string, selector: string) {
    && !r.collectionFailed
    && (exists e :: e in r.collections && e.runtime == runtime)
    && (forall e :: e in r.collections && e.runtime == runtime ==> e.passing)
    && (exists e, n :: e in r.collections && e.runtime == runtime && n in e.nodeids
          && NormalizeNodeid(n) == NormalizeNodeid(selector))
  }

  function CommitOf(o: Outcome, r: Results): Option<string> { OrElse(o.commit, r.commit) }

  function BuildStatus(runtime: string, r: Results, policy: Policy): Status {
    if runtime !in r.runtimes then Unidentified
    else
      var identity := r.runtimes[runtime];
      if identity.pyboyMode.Some? && identity.pyboyMode.value != runtime then Mismatched
      else if policy.revision.Some? && identity.revision == None then Unidentified
      else if policy.revision.Some? && identity.revision != policy.revision then Mismatched
      else if policy.version.Some? && identity.version == None then Unidentified
      else if policy.version.Some? && identity.version != policy.version then Mismatched
      else Tested
  }

  function EvaluateCase(
      runtime: string, records: seq<Outcome>, r: Results, expected: Option<string>, policy: Policy, selector: string): Status
  {
    if records == [] then Missing
    else if |records| > 1 then Duplicate
    else
      var o := records[0];
      if o.partial then Partial
      else if o.status !in Accepted(policy) then IncompleteLabel(o.status)
      else if r.mergeConflict then Mismatched
      else if BuildStatus(runtime, r, policy) != Tested then BuildStatus(runtime, r, policy)
      else if CommitOf(o, r) == None then Unidentified
      else if expected.Some? && CommitOf(o, r) != expected then Mismatched
      else if !Collected(r, runtime, selector) then Collecting
      else Tested
  }

  function KeysFor(q: Requirement): seq<string> {
    [q.role + "_" + q.kind, q.role + "_" + q.kind + "_sha1", q.version + "_" + q.kind,
     q.version + "_" + q.kind + "_sha1", q.kind + ":" + q.version]
      + (if q.kind == "fixture" then [q.role + "_input_fixture", "input_fixture:" + q.version] else [])
      + (if q.role == "listen" then [q.kind, q.kind + "_sha1", "input_fixture"] else [])
  }

  function FirstObserved(observed: Hashes, keys: seq<string>): Option<string> {
    if keys == [] then None
    else if keys[0] in observed && observed[keys[0]] != "" then Some(observed[keys[0]])
    else FirstObserved(observed, keys[1..])
  }

  function Observed(observed: Hashes, q: Requirement): Option<string> { FirstObserved(observed, KeysFor(q)) }

  // A wrong hash is worse than a missing one.
  function CheckInputs(c: Case, observed: Hashes): Status {
    if exists q :: q in c.requirements && Observed(observed, q).Some? && Observed(observed, q).value !in q.accepted
    then Mismatched
    else if exists q :: q in c.requirements && Observed(observed, q) == None then Unidentified
    else Tested
  }

  function CheckEffect(c: Case, o: Outcome): Status {
    if c.effect == None then Tested
    else if o.effects == [] then Unidentified
    else if exists e :: e in o.effects && e != c.effect.value then Mismatched
    else Tested
  }

  function CheckStatus(
      catalog: Catalog, c: Case, runtime: string, results: Option<Results>, expected: Option<string>): Status
    requires c.selector.Some?
  {
    if Discredited(catalog, c) then CatalogError
    else if results == None then Missing
    else
      var r := results.value;
      var records := Lookup(r, runtime, c.selector.value);
      var s := EvaluateCase(runtime, records, r, expected, catalog.policy, c.selector.value);
      if s != Tested || records == [] then s
      else if CheckInputs(c, records[0].hashes) != Tested then CheckInputs(c, records[0].hashes)
      else CheckEffect(c, records[0])
  }

  // ------------------------------------------------------------------ all checks

  datatype CheckReport = CheckReport(
    caseId: Option<string>, dimension: Dimension, selector: string, runtime: string, status: Status)

  function ReportsOf(
      catalog: Catalog, c: Case, runtimes: seq<string>, results: Option<Results>, expected: Option<string>): seq<CheckReport>
  {
    if c.selector == None || runtimes == [] then []
    else
      var rt := runtimes[|runtimes| - 1];
      ReportsOf(catalog, c, runtimes[..|runtimes| - 1], results, expected)
        + [CheckReport(c.caseId, c.dimension, c.selector.value, rt, CheckStatus(catalog, c, rt, results, expected))]
  }

  function Reports(catalog: Catalog, cases: seq<Case>, results: Option<Results>, expected: Option<string>): seq<CheckReport> {
    if cases == [] then []
    else
      var c := cases[|cases| - 1];
      Reports(catalog, cases[..|cases| - 1], results, expected) + ReportsOf(catalog, c, c.runtimes, results, expected)
  }

  lemma {:induction false} ReportsOfCase(
      catalog: Catalog, c: Case, runtimes: seq<string>, results: Option<Results>, expected: Option<string>, rt: string)
    requires c.selector.Some? && rt in runtimes
    ensures CheckReport(c.caseId, c.dimension, c.selector.value, rt, CheckStatus(catalog, c, rt, results, expected))
      in ReportsOf(catalog, c, runtimes, results, expected)
  {
    hide CheckStatus;
    var init, last := runtimes[..|runtimes| - 1], runtimes[|runtimes| - 1];
    assert runtimes == init + [last];
    if rt in init { ReportsOfCase(catalog, c, init, results, expected, rt); }
  }

  // Every case is checked in every runtime it declares.
  lemma {:induction false} EveryCaseReported(
      catalog: Catalog, cases: seq<Case>, results: Option<Results>, expected: Option<string>, c: Case, rt: string)
    requires c in cases && c.selector.Some? && rt in c.runtimes
    ensures CheckReport(c.caseId, c.dimension, c.selector.value, rt, CheckStatus(catalog, c, rt, results, expected))
      in Reports(catalog, cases, results, expected)
  {
    hide CheckStatus, ReportsOf;
    var init, last := cases[..|cases| - 1], cases[|cases| - 1];
    assert cases == init + [last];
    if c in init {
      EveryCaseReported(catalog, init, results, expected, c, rt);
    } else {
      ReportsOfCase(catalog, c, c.runtimes, results, expected, rt);
    }
  }

  // A report's own statuses are the tested mark or incomplete ones, nothing else.
  lemma EvaluatedStatuses(
      runtime: string, records: seq<Outcome>, r: Results, expected: Option<string>, policy: Policy, selector: string)
    ensures var s := EvaluateCase(runtime, records, r, expected, policy, selector); s == Tested || IsIncomplete(s)
  {
    hide Accepted, Collected, CommitOf;
  }

  lemma CheckedStatuses(catalog: Catalog, c: Case, runtime: string, results: Option<Results>, expected: Option<string>)
    requires c.selector.Some?
    ensures var s := CheckStatus(catalog, c, runtime, results, expected); s == Tested || IsIncomplete(s)
  {
    if results.Some? {
      EvaluatedStatuses(runtime, Lookup(results.value, runtime, c.selector.value), results.value, expected, catalog.policy,
                        c.selector.value);
    }
    hide EvaluateCase, Lookup, Discredited;
  }

  // ------------------------------------------------------------------ dimensions

  datatype DimensionStatus =
    | DimensionMissing | DimensionIncomplete | DimensionComplete
    | DimensionPartial | DimensionPlanned | DimensionExcluded

  predicate Credited(reports: seq<CheckReport>, caseId: string) {
    && (forall rt :: rt in MANDATORY ==>
          exists r :: r in reports && r.dimension == Mechanics && r.caseId == Some(caseId) && r.runtime == rt)
    && (forall r :: r in reports && r.dimension == Mechanics && r.caseId == Some(caseId) ==> r.status == Tested)
  }

  // The effect a case id declares; a later declaration replaces an earlier one.
  function DeclaredEffect(cases: seq<Case>, caseId: string): Option<int> {
    if cases == [] then None
    else if cases[|cases| - 1].caseId == Some(caseId) then cases[|cases| - 1].effect
    else DeclaredEffect(cases[..|cases| - 1], caseId)
  }

  predicate FamilyCredited(catalog: Catalog, reports: seq<CheckReport>, f: Family) {
    f.evidence != [] && forall id :: id in f.evidence ==>
      Credited(reports, id) && DeclaredEffect(catalog.cases, id) == Some(f.effectId)
  }

  predicate FamilyTested(catalog: Catalog, reports: seq<CheckReport>, f: Family) {
    f.scope == ScopeTested && CatalogValid(catalog) && FamilyCredited(catalog, reports, f)
  }

  // The first declaration of each effect is the one that counts.
  predicate First(families: seq<Family>, i: nat)
    requires i < |families|
  {
    forall j :: 0 <= j < i ==> families[j].effectId != families[i].effectId
  }

  predicate MechanicsComplete(catalog: Catalog, reports: seq<CheckReport>) {
    && CatalogValid(catalog)
    && (exists i :: 0 <= i < |catalog.families| && First(catalog.families, i)
          && FamilyTested(catalog, reports, catalog.families[i]))
    && forall i :: 0 <= i < |catalog.families| && First(catalog.families, i) ==>
         catalog.families[i].scope == ScopeExcluded || FamilyTested(catalog, reports, catalog.families[i])
  }

  predicate AllTested(reports: seq<CheckReport>, dimension: Dimension) {
    && (exists r :: r in reports && r.dimension == dimension)
    && forall r :: r in reports && r.dimension == dimension ==> r.status == Tested
  }

  // ------------------------------------------------------------------ the verdict

  function DeclaredPairing(cases: seq<Case>): set<string> {
    set c | c in cases && c.dimension == Pairing :: NormalizeNodeid(if c.selector.Some? then c.selector.value else "")
  }

  function Revisions(r: Results): set<string> {
    set rt | rt in r.runtimes && r.runtimes[rt].revision.Some? :: r.runtimes[rt].revision.value
  }

  // Nothing about the results as a whole stands against a complete claim.
  predicate SourceClean(r: Results, expected: Option<string>) {
    && !r.collectionFailed && !r.partial && r.conflicts == {} && !r.missingCommit
    && (expected.Some? && r.commit.Some? ==> r.commit == expected)
    && (expected.Some? && r.commit == None ==> OutcomeCommits(r.outcomes) != {})
    && |Revisions(r)| <= 1
  }

  predicate CatalogClean(catalog: Catalog) {
    && CatalogValid(catalog)
    && (forall c :: c in catalog.cases ==> c.knownFixture && RuntimesComplete(c) && c.rolesComplete)
    && DeclaredPairing(catalog.cases) == catalog.expectedPairing
  }

  // When a report says COMPLETE.
  predicate Complete(catalog: Catalog, results: Option<Results>, expected: Option<string>) {
    && CatalogClean(catalog)
    && results.Some? && SourceClean(results.value, expected)
    && var reports := Reports(catalog, catalog.cases, results, expected);
       && (forall r :: r in reports ==> r.status == Tested)
       && AllTested(reports, Pairing) && MechanicsComplete(catalog, reports)
  }

  // The evidence one check stands on: a single record for the case in the runtime,
  // terminal, accepted, not partial, collected, from the identified build and commit,
  // with every declared input and effect observed.
  ghost predicate Stands(catalog: Catalog, c: Case, rt: string, r: Results, commit: string) {
    c.selector.Some? && exists o :: StandsOn(catalog, c, rt, r, commit, o)
  }

  predicate StandsOn(catalog: Catalog, c: Case, rt: string, r: Results, commit: string, o: Outcome)
    requires c.selector.Some?
  {
    && Lookup(r, rt, c.selector.value) == [o]
    && o.runtime == rt && !o.partial && o.status in Accepted(catalog.policy) && !IsIncomplete(o.status)
    && Collected(r, rt, c.selector.value)
    && CommitOf(o, r) == Some(commit)
    && BuildStatus(rt, r, catalog.policy) == Tested
    && (forall q :: q in c.requirements ==> Observed(o.hashes, q).Some? && Observed(o.hashes, q).value in q.accepted)
    && (c.effect.Some? ==> o.effects != [] && forall e :: e in o.effects ==> e == c.effect.value)
  }

  lemma AcceptedIsTerminal(policy: Policy, s: Status)
    requires s in Accepted(policy)
    ensures !IsIncomplete(s)
  {
  }

  lemma TestedStands(catalog: Catalog, c: Case, rt: string, r: Results, expected: Option<string>) returns (commit: string)
    requires c.selector.Some? && CheckStatus(catalog, c, rt, Some(r), expected) == Tested
    ensures Stands(catalog, c, rt, r, commit)
    ensures expected.Some? ==> Some(commit) == expected
    ensures exists o :: o in Lookup(r, rt, c.selector.value) && CommitOf(o, r) == Some(commit)
  {
    hide Lookup, Collected, Observed, Accepted, BuildStatus, Discredited;
    var records := Lookup(r, rt, c.selector.value);
    InputsTested(c, records[0]);
    AcceptedIsTerminal(catalog.policy, records[0].status);
    assert records == [records[0]];
    LookedUp(r, rt, c.selector.value, records[0]);
    commit := CommitOf(records[0], r).value;
    hide CheckInputs, CheckEffect;
    assert StandsOn(catalog, c, rt, r, commit, records[0]);
  }

  lemma LookedUp(r: Results, rt: string, selector: string, o: Outcome)
    requires o in Lookup(r, rt, selector)
    ensures o in r.outcomes && o.runtime == rt
  {
  }

  lemma InputsTested(c: Case, o: Outcome)
    ensures CheckInputs(c, o.hashes) == Tested ==>
      forall q :: q in c.requirements ==> Observed(o.hashes, q).Some? && Observed(o.hashes, q).value in q.accepted
    ensures CheckEffect(c, o) == Tested ==> c.effect.Some? ==> o.effects != [] && forall e :: e in o.effects ==> e == c.effect.value
  {
    hide Observed;
  }

  // A complete report: nothing in the document was partial, and every required case
  // stands, in every mandatory runtime, on one record of one and the same commit.
  lemma CompleteMeans(catalog: Catalog, d: Document, expected: Option<string>) returns (commit: string)
    requires Complete(catalog, Some(ResultsOf(d)), expected)
    ensures NothingPartial(d)
    ensures expected.Some? ==> Some(commit) == expected
    ensures forall c, rt :: c in catalog.cases && rt in MANDATORY ==> Stands(catalog, c, rt, ResultsOf(d), commit)
  {
    hide CheckStatus, Stands, MechanicsComplete, ResultsOf, SourceClean, Reports, DeclarationError;
    var r := ResultsOf(d);
    CleanSource(d, expected);
    NoConflictNothingPartial(d);
    commit := AnyCommit(catalog, d, expected);
    forall c, rt | c in catalog.cases && rt in MANDATORY ensures Stands(catalog, c, rt, r, commit) {
      OneCommit(catalog, d, expected, c, rt, commit);
    }
  }

  lemma CleanSource(d: Document, expected: Option<string>)
    requires SourceClean(ResultsOf(d), expected)
    ensures ResultsOf(d).conflicts == {} && !ResultsOf(d).partial
  {
    hide ResultsOf;
  }

  // Every required check of a complete report is tested, so it names its commit.
  lemma RequiredCheckTested(catalog: Catalog, results: Option<Results>, expected: Option<string>, c: Case, rt: string)
    requires Complete(catalog, results, expected) && c in catalog.cases && rt in MANDATORY
    ensures c.selector.Some? && CheckStatus(catalog, c, rt, results, expected) == Tested
  {
    hide CheckStatus, MechanicsComplete, SourceClean, Reports, AllTested;
    assert !DeclarationError(catalog, c) && RuntimesComplete(c);
    EveryCaseReported(catalog, catalog.cases, results, expected, c, rt);
  }

  // A commit some required check stands on.
  lemma AnyCommit(catalog: Catalog, d: Document, expected: Option<string>) returns (commit: string)
    requires Complete(catalog, Some(ResultsOf(d)), expected)
    ensures catalog.cases != []
    ensures commit in AllCommits(ResultsOf(d)) && (d.runtimes.Some? || HasEvidence(d.top))
    ensures expected.Some? ==> Some(commit) == expected
  {
    hide CheckStatus, MechanicsComplete, ResultsOf, SourceClean, Stands;
    var r := ResultsOf(d);
    var first := catalog.cases[0];
    var rt := MANDATORY[0];
    assert rt in MANDATORY;
    RequiredCheckTested(catalog, Some(r), expected, first, rt);
    commit := TestedStands(catalog, first, rt, r, expected);
    CommitIsKnown(d, first, rt, commit);
  }

  lemma CommitIsKnown(d: Document, c: Case, rt: string, commit: string)
    requires c.selector.Some?
    requires exists o :: o in Lookup(ResultsOf(d), rt, c.selector.value) && CommitOf(o, ResultsOf(d)) == Some(commit)
    ensures commit in AllCommits(ResultsOf(d)) && (d.runtimes.Some? || HasEvidence(d.top))
  {
    hide ResultsOfBlocks, ResultsOfTop;
    var o :| o in Lookup(ResultsOf(d), rt, c.selector.value) && CommitOf(o, ResultsOf(d)) == Some(commit);
    LookedUp(ResultsOf(d), rt, c.selector.value, o);
  }

  lemma OneCommit(catalog: Catalog, d: Document, expected: Option<string>, c: Case, rt: string, commit: string)
    requires Complete(catalog, Some(ResultsOf(d)), expected) && c in catalog.cases && rt in MANDATORY
    requires commit in AllCommits(ResultsOf(d))
    ensures Stands(catalog, c, rt, ResultsOf(d), commit)
  {
    hide CheckStatus, MechanicsComplete, ResultsOf, Reports, Stands;
    var r := ResultsOf(d);
    RequiredCheckTested(catalog, Some(r), expected, c, rt);
    var own := TestedStands(catalog, c, rt, r, expected);
    CommitIsKnown(d, c, rt, own);
    NoConflictOneCommit(d, own, commit);
  }
}
