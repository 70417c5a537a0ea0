// A document that is enough for a COMPLETE report: two blocks, one per mandatory runtime,
// each reporting every required case once, as normalised records, as test rows or as the
// cases of a gate tier (scripts/_coverage_report_build.py).
module CoverageWitness {
  import opened Common
  import opened CoverageResults
  import opened CoverageReport

  // A pairing case and a mechanics case with its one effect family.
  function SmallCatalog(p: string, m: string): Catalog {
    Catalog(
      [Case(Some("P"), Pairing, Some(p), MANDATORY, true, true, [], None, true),
       Case(Some("M"), Mechanics, Some(m), MANDATORY, true, true, [], Some(0), true)],
      [Family(0, ScopeTested, ["M"])], {Pairing, Mechanics}, Policy(None, None, None), {NormalizeNodeid(p)}, true)
  }

  function Passing(id: string, effects: seq<int>): RawRecord {
    RawRecord(Some(id), Passed, GatePass, false, None, false, None, None, map[], effects)
  }

  // How a block reports its tests.
  datatype Shape = AsRecords | AsTests | AsTier

  function RuntimeBlock(rt: string, p: string, m: string, commit: string, shape: Shape): Block {
    var rows := [Passing(p, []), Passing(m, [0])];
    Block(Some(rt), true, Some(Identity(Some(rt), None, None, "")), false, NoText, None, Some(commit), false,
          [RawCollection(true, [p, m])], if shape.AsRecords? then Some(rows) else None,
          if shape.AsTests? then Some(rows) else None,
          if shape.AsTier? then Some([RawTier(false, GatePass, rows, [])]) else None, map[])
  }

  const BARE_TOP: Block :=
    Block(None, false, None, false, NoText, None, None, false, [], None, None, None, map[])

  function Blocks(p: string, m: string, commit: string, shape: Shape): seq<Block> {
    [RuntimeBlock("source", p, m, commit, shape), RuntimeBlock("cython", p, m, commit, shape)]
  }

  function SmallDocument(p: string, m: string, commit: string, shape: Shape): Document {
    Document(BARE_TOP, Some(Blocks(p, m, commit, shape)))
  }

  function Reported(id: string, rt: string, commit: string, effects: seq<int>): Outcome {
    Outcome(id, Passed, rt, false, Some(commit), None, map[], effects)
  }

  function Outcomes(p: string, m: string, commit: string): seq<Outcome> {
    [Reported(p, "source", commit, []), Reported(m, "source", commit, [0]),
     Reported(p, "cython", commit, []), Reported(m, "cython", commit, [0])]
  }

  lemma BlockOutcomes(rt: string, p: string, m: string, commit: string, shape: Shape)
    requires p != "" && m != ""
    ensures var b := RuntimeBlock(rt, p, m, commit, shape);
      OfBlock(b, rt, InheritedBy(b, BARE_TOP)) == [Reported(p, rt, commit, []), Reported(m, rt, commit, [0])]
  {
    var b := RuntimeBlock(rt, p, m, commit, shape);
    var none: Hashes := map[];
    assert none + none == none;
    var inside := InheritedBy(b, BARE_TOP).(hashes := none + none);
    assert inside == Inherited(false, Some(commit), None, map[]);
    var rows := [Passing(p, []), Passing(m, [0])];
    RowsOutcomes(rt, p, m, commit);
    hide RuntimeBlock, OfRecords, OfTests, OfCases, NormalizeNodeid;
    assert OfRecords([], rt, inside, map[]) == [] && OfTests([], rt, inside) == [] by { NoRows(rt, inside); }
    NoRows(rt, inside);
    match shape {
      case AsRecords => BlockFields(rt, p, m, commit, shape);
      case AsTests => BlockFields(rt, p, m, commit, shape);
      case AsTier =>
        BlockFields(rt, p, m, commit, shape);
        OneTier(rt, rows, inside, SeenIds(b));
    }
  }

  lemma BlockFields(rt: string, p: string, m: string, commit: string, shape: Shape)
    ensures var b, rows := RuntimeBlock(rt, p, m, commit, shape), [Passing(p, []), Passing(m, [0])];
      && Records(b) == (if shape.AsRecords? then rows else []) && Tests(b) == (if shape.AsTests? then rows else [])
      && Tiers(b) == (if shape.AsTier? then [RawTier(false, GatePass, rows, [])] else []) && b.hashes == map[]
  {
  }

  lemma NoRows(rt: string, inside: Inherited)
    ensures OfRecords([], rt, inside, map[]) == [] && OfTests([], rt, inside) == []
  {
  }

  lemma RowsOutcomes(rt: string, p: string, m: string, commit: string)
    requires p != "" && m != ""
    ensures var rows, inside := [Passing(p, []), Passing(m, [0])], Inherited(false, Some(commit), None, map[]);
      var two := [Reported(p, rt, commit, []), Reported(m, rt, commit, [0])];
      && OfRecords(rows, rt, inside, map[]) == two && OfTests(rows, rt, inside) == two && OfCases(rows, rt, inside) == two
  {
    var rows, inside := [Passing(p, []), Passing(m, [0])], Inherited(false, Some(commit), None, map[]);
    var none: Hashes := map[];
    assert none + none == none;
    assert rows[..1] == [rows[0]] && rows[..1][..0] == [];
    hide NormalizeNodeid;
    assert OfRecords(rows[..1], rt, inside, map[]) == [Reported(p, rt, commit, [])];
    assert OfTests(rows[..1], rt, inside) == [Reported(p, rt, commit, [])];
    assert OfCases(rows[..1], rt, inside) == [Reported(p, rt, commit, [])];
  }

  lemma OneTier(rt: string, rows: seq<RawRecord>, inside: Inherited, seen: set<string>)
    requires !inside.partial
    ensures OfTiers([RawTier(false, GatePass, rows, [])], rt, inside, seen) == OfCases(rows, rt, inside)
  {
    hide OfCases, NormalizeNodeid;
    var tiers := [RawTier(false, GatePass, rows, [])];
    assert tiers[..0] == [] && OfTiers([], rt, inside, seen) == [];
    assert OfDetails([], rt, inside, SeenAfter(tiers, seen)) == [];
    assert inside.(partial := inside.partial || TierPartial(tiers[0])) == inside;
  }

  lemma DocumentOutcomes(p: string, m: string, commit: string, shape: Shape)
    requires p != "" && m != ""
    ensures OfBlocks(Blocks(p, m, commit, shape), BARE_TOP) == Outcomes(p, m, commit)
    ensures ResultsOf(SmallDocument(p, m, commit, shape)).outcomes == Outcomes(p, m, commit)
  {
    BlocksOutcomes(p, m, commit, shape);
    TopAddsNothing(Blocks(p, m, commit, shape));
    hide OfBlocks, OfRecords, Outcomes, PartialByMode, DefaultMode, Blocks, RuntimesOf, BlockConflicts;
  }

  lemma TopAddsNothing(blocks: seq<Block>)
    ensures OfRecords(Records(BARE_TOP), DefaultMode(blocks), TopInherited(BARE_TOP), PartialByMode(blocks, BARE_TOP)) == []
  {
    hide PartialByMode, DefaultMode;
    assert Records(BARE_TOP) == [];
  }

  lemma BlocksOutcomes(p: string, m: string, commit: string, shape: Shape)
    requires p != "" && m != ""
    ensures OfBlocks(Blocks(p, m, commit, shape), BARE_TOP) == Outcomes(p, m, commit)
  {
    var bs := Blocks(p, m, commit, shape);
    assert bs[..1] == [bs[0]] && bs[..1][..0] == [];
    assert ModeOf(bs[0]) == "source" && ModeOf(bs[1]) == "cython";
    hide OfBlock, InheritedBy, RuntimeBlock, ModeOf;
    BlockOutcomes("source", p, m, commit, shape);
    BlockOutcomes("cython", p, m, commit, shape);
    assert OfBlocks([], BARE_TOP) == [];
    assert OfBlocks(bs[..1], BARE_TOP) == OfBlock(bs[0], "source", InheritedBy(bs[0], BARE_TOP));
  }

  // What the document's results are, as far as the report reads them.
  ghost predicate IsSmall(r: Results, p: string, m: string, commit: string) {
    && r.outcomes == Outcomes(p, m, commit)
    && r.runtimes == map["source" := Identity(Some("source"), None, None, ""), "cython" := Identity(Some("cython"), None, None, "")]
    && !r.partial && !r.collectionFailed && r.conflicts == {} && !r.missingCommit && !r.mergeConflict && r.commit == None
    && r.collections == {Evidence("source", true, [p, m]), Evidence("cython", true, [p, m])}
  }

  // The whole normalised document: two builds, one commit, nothing against a merge.
  lemma DocumentResults(p: string, m: string, commit: string, shape: Shape)
    requires p != "" && m != ""
    ensures IsSmall(ResultsOf(SmallDocument(p, m, commit, shape)), p, m, commit)
  {
    DocumentOutcomes(p, m, commit, shape);
    DocumentRuntimes(p, m, commit, shape);
    DocumentCollections(p, m, commit, shape);
    DocumentConflicts(p, m, commit, shape);
    DocumentIdentity(p, m, commit, shape);
    hide OfBlocks, OfRecords, RuntimesOf, CollectedForAll, CollectedByBlocks, AnyBlockFailing, BlockConflicts,
      AllCommits, AllRuns, RunIds, Commits, PartialByMode, DefaultMode, RuntimeBlock;
  }

  lemma DocumentRuntimes(p: string, m: string, commit: string, shape: Shape)
    ensures RuntimesOf(Blocks(p, m, commit, shape))
      == map["source" := Identity(Some("source"), None, None, ""), "cython" := Identity(Some("cython"), None, None, "")]
  {
    var bs := Blocks(p, m, commit, shape);
    assert bs[..1] == [bs[0]] && bs[..1][..0] == [];
    assert RuntimesOf([]) == map[];
    assert RuntimesOf(bs[..1]) == map["source" := Identity(Some("source"), None, None, "")];
  }

  lemma DocumentCollections(p: string, m: string, commit: string, shape: Shape)
    ensures var bs := Blocks(p, m, commit, shape);
      && CollectedForAll(BARE_TOP.collections, Modes(bs)) + CollectedByBlocks(bs)
         == {Evidence("source", true, [p, m]), Evidence("cython", true, [p, m])}
      && !AnyBlockFailing(bs) && !AnyFailing(BARE_TOP.collections)
  {
    var bs := Blocks(p, m, commit, shape);
    assert bs[0] in bs && bs[1] in bs;
    assert bs[0].collections[0] in bs[0].collections && bs[1].collections[0] in bs[1].collections;
  }

  lemma DocumentConflicts(p: string, m: string, commit: string, shape: Shape)
    ensures BlockConflicts(Blocks(p, m, commit, shape), BARE_TOP) == {}
  {
    var bs := Blocks(p, m, commit, shape);
    assert "source"[0] != "cython"[0];
    assert ModeOf(bs[0]) == "source" && ModeOf(bs[1]) == "cython";
    assert PrintsOf(bs, "source") == {PrintOf(bs[0])};
    assert PrintsOf(bs, "cython") == {PrintOf(bs[1])};
    forall mode | mode in Modes(bs) ensures |PrintsOf(bs, mode)| <= 1 {
      assert mode == "source" || mode == "cython";
    }
    hide PrintsOf, ModeOf;
  }

  // One commit over outcomes and blocks, and no run id at all.
  lemma DocumentIdentity(p: string, m: string, commit: string, shape: Shape)
    ensures OutcomeCommits(Outcomes(p, m, commit)) + Commits(Blocks(p, m, commit, shape)) + Given(None) == {commit}
    ensures OutcomeRuns(Outcomes(p, m, commit)) + RunIds(Blocks(p, m, commit, shape)) + Given(None) == {}
  {
    var os, bs := Outcomes(p, m, commit), Blocks(p, m, commit, shape);
    assert os[0] in os && bs[0] in bs;
  }

  // ------------------------------------------------------------- the report

  predicate Distinct(p: string, m: string) { p != "" && m != "" && NormalizeNodeid(p) != NormalizeNodeid(m) }

  predicate Is(o: Outcome, rt: string, target: string) { o.runtime == rt && NormalizeNodeid(o.nodeid) == target }

  lemma LookupInFour(a: Outcome, b: Outcome, c: Outcome, d: Outcome, rt: string, target: string)
    ensures LookupIn([a, b, c, d], rt, target) ==
      (if Is(a, rt, target) then [a] else []) + (if Is(b, rt, target) then [b] else [])
      + (if Is(c, rt, target) then [c] else []) + (if Is(d, rt, target) then [d] else [])
  {
    hide NormalizeNodeid;
    assert [a, b, c, d][..3] == [a, b, c] && [a, b, c][..2] == [a, b] && [a, b][..1] == [a] && [a][..0] == [];
    assert LookupIn([a], rt, target) == if Is(a, rt, target) then [a] else [];
    assert LookupIn([a, b], rt, target) == LookupIn([a], rt, target) + if Is(b, rt, target) then [b] else [];
    assert LookupIn([a, b, c], rt, target) == LookupIn([a, b], rt, target) + if Is(c, rt, target) then [c] else [];
  }

  // One passing record of the runtime under the commit is all a check needs.
  lemma OneRecordTested(catalog: Catalog, c: Case, rt: string, r: Results, commit: string, o: Outcome)
    requires catalog.policy == Policy(None, None, None) && c.requirements == [] && c.selector.Some? && !Discredited(catalog, c)
    requires Lookup(r, rt, c.selector.value) == [o]
    requires o.status == Passed && !o.partial && o.commit == Some(commit)
    requires c.effect.Some? ==> o.effects == [c.effect.value]
    requires !r.mergeConflict && rt in r.runtimes && r.runtimes[rt] == Identity(Some(rt), None, None, "")
    requires Collected(r, rt, c.selector.value)
    ensures CheckStatus(catalog, c, rt, Some(r), Some(commit)) == Tested
  {
    hide Lookup, Discredited, Collected;
    assert Accepted(catalog.policy) == [Passed];
    assert EvaluateCase(rt, [o], r, Some(commit), catalog.policy, c.selector.value) == Tested;
  }

  lemma LookedUpOnce(r: Results, p: string, m: string, commit: string, rt: string)
    requires Distinct(p, m) && rt in MANDATORY && r.outcomes == Outcomes(p, m, commit)
    ensures Lookup(r, rt, p) == [Reported(p, rt, commit, [])] && Lookup(r, rt, m) == [Reported(m, rt, commit, [0])]
  {
    assert "source"[0] != "cython"[0];
    hide LookupIn, NormalizeNodeid;
    var os := Outcomes(p, m, commit);
    LookupInFour(os[0], os[1], os[2], os[3], rt, NormalizeNodeid(p));
    LookupInFour(os[0], os[1], os[2], os[3], rt, NormalizeNodeid(m));
  }

  lemma SelectorsCollected(r: Results, p: string, m: string, commit: string, rt: string)
    requires IsSmall(r, p, m, commit) && rt in MANDATORY
    ensures Collected(r, rt, p) && Collected(r, rt, m)
  {
    hide NormalizeNodeid;
    var e := Evidence(rt, true, [p, m]);
    assert e.nodeids[0] == p && e.nodeids[1] == m;
    assert e in r.collections && e.runtime == rt && p in e.nodeids && m in e.nodeids;
    assert "source"[0] != "cython"[0];
    assert forall x :: x in r.collections && x.runtime == rt ==> x.passing;
    assert exists x :: x in r.collections && x.runtime == rt;
    forall id | id == p || id == m ensures Collected(r, rt, id) {
      assert id in e.nodeids && NormalizeNodeid(id) == NormalizeNodeid(id);
    }
  }

  lemma SmallCatalogValid(p: string, m: string)
    ensures CatalogClean(SmallCatalog(p, m))
    ensures forall c :: c in SmallCatalog(p, m).cases ==> !Discredited(SmallCatalog(p, m), c)
  {
    hide NormalizeNodeid;
    var catalog := SmallCatalog(p, m);
    assert catalog.cases[0] in catalog.cases && catalog.cases[1] in catalog.cases;
    assert forall c :: c in catalog.cases ==> !DeclarationError(catalog, c) && RuntimesComplete(c);
  }

  lemma CaseTested(r: Results, p: string, m: string, commit: string, rt: string, i: nat)
    requires Distinct(p, m) && rt in MANDATORY && IsSmall(r, p, m, commit) && i < 2
    ensures CheckStatus(SmallCatalog(p, m), SmallCatalog(p, m).cases[i], rt, Some(r), Some(commit)) == Tested
  {
    SmallCatalogValid(p, m);
    LookedUpOnce(r, p, m, commit, rt);
    SelectorsCollected(r, p, m, commit, rt);
    hide Lookup, NormalizeNodeid, Discredited, Collected, Outcomes, CheckStatus, CatalogClean;
    var catalog := SmallCatalog(p, m);
    var o := if i == 0 then Reported(p, rt, commit, []) else Reported(m, rt, commit, [0]);
    assert catalog.cases[i] in catalog.cases;
    OneRecordTested(catalog, catalog.cases[i], rt, r, commit, o);
  }

  function Tick(c: Case, rt: string): CheckReport
    requires c.selector.Some?
  {
    CheckReport(c.caseId, c.dimension, c.selector.value, rt, Tested)
  }

  lemma CaseReports(catalog: Catalog, c: Case, r: Results, commit: string)
    requires c.selector.Some? && c.runtimes == MANDATORY
    requires forall rt :: rt in MANDATORY ==> CheckStatus(catalog, c, rt, Some(r), Some(commit)) == Tested
    ensures ReportsOf(catalog, c, c.runtimes, Some(r), Some(commit)) == [Tick(c, "source"), Tick(c, "cython")]
  {
    hide CheckStatus;
    assert "source" in MANDATORY && "cython" in MANDATORY;
    assert c.runtimes[..1] == ["source"] && ["source"][..0] == [];
    assert ReportsOf(catalog, c, ["source"], Some(r), Some(commit)) == [Tick(c, "source")];
  }

  lemma TwoCaseReports(catalog: Catalog, a: Case, b: Case, r: Results, commit: string, ra: seq<CheckReport>, rb: seq<CheckReport>)
    requires ReportsOf(catalog, a, a.runtimes, Some(r), Some(commit)) == ra
    requires ReportsOf(catalog, b, b.runtimes, Some(r), Some(commit)) == rb
    ensures Reports(catalog, [a, b], Some(r), Some(commit)) == ra + rb
  {
    hide ReportsOf;
    assert [a, b][..1] == [a] && [a][..0] == [];
    assert Reports(catalog, [a], Some(r), Some(commit)) == ra;
  }

  lemma SmallReports(r: Results, p: string, m: string, commit: string)
    requires Distinct(p, m) && IsSmall(r, p, m, commit)
    ensures var cases := SmallCatalog(p, m).cases;
      Reports(SmallCatalog(p, m), cases, Some(r), Some(commit))
        == [Tick(cases[0], "source"), Tick(cases[0], "cython"), Tick(cases[1], "source"), Tick(cases[1], "cython")]
  {
    var catalog := SmallCatalog(p, m);
    hide ReportsOf, Reports, CheckStatus, IsSmall, NormalizeNodeid;
    forall rt, i | rt in MANDATORY && 0 <= i < 2
      ensures CheckStatus(catalog, catalog.cases[i], rt, Some(r), Some(commit)) == Tested
    {
      CaseTested(r, p, m, commit, rt, i);
    }
    var cases := catalog.cases;
    CaseReports(catalog, cases[0], r, commit);
    CaseReports(catalog, cases[1], r, commit);
    assert cases == [cases[0], cases[1]];
    TwoCaseReports(catalog, cases[0], cases[1], r, commit, [Tick(cases[0], "source"), Tick(cases[0], "cython")],
                   [Tick(cases[1], "source"), Tick(cases[1], "cython")]);
  }

  lemma SmallDimensions(p: string, m: string, reports: seq<CheckReport>)
    requires CatalogClean(SmallCatalog(p, m))
    requires var cases := SmallCatalog(p, m).cases;
      reports == [Tick(cases[0], "source"), Tick(cases[0], "cython"), Tick(cases[1], "source"), Tick(cases[1], "cython")]
    ensures (forall r :: r in reports ==> r.status == Tested)
    ensures AllTested(reports, Pairing) && MechanicsComplete(SmallCatalog(p, m), reports)
  {
    hide NormalizeNodeid, DeclarationError;
    var catalog := SmallCatalog(p, m);
    assert reports[0] in reports && reports[2] in reports && reports[3] in reports;
    assert Credited(reports, "M");
    var cases := catalog.cases;
    assert DeclaredEffect(cases, "M") == Some(0);
    assert First(catalog.families, 0) && catalog.families[0].evidence == ["M"];
    assert FamilyTested(catalog, reports, catalog.families[0]);
  }

  lemma SmallSourceClean(r: Results, p: string, m: string, commit: string)
    requires IsSmall(r, p, m, commit)
    ensures SourceClean(r, Some(commit))
  {
    var os := Outcomes(p, m, commit);
    assert os[0] in os && commit in OutcomeCommits(os);
    assert Revisions(r) == {};
  }

  // Two cases over two runtimes, each reported once by its runtime's block under one
  // commit, make a complete report, in each of the three forms a block may report in.
  lemma SmallDocumentComplete(p: string, m: string, commit: string, shape: Shape)
    requires Distinct(p, m)
    ensures Complete(SmallCatalog(p, m), Some(ResultsOf(SmallDocument(p, m, commit, shape))), Some(commit))
  {
    var catalog := SmallCatalog(p, m);
    var r := ResultsOf(SmallDocument(p, m, commit, shape));
    DocumentResults(p, m, commit, shape);
    SmallCatalogValid(p, m);
    SmallSourceClean(r, p, m, commit);
    SmallReports(r, p, m, commit);
    hide ResultsOf, CatalogClean, SourceClean, Reports, SmallCatalog;
    SmallDimensions(p, m, Reports(catalog, catalog.cases, Some(r), Some(commit)));
  }
}
