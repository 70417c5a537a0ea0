// What a COMPLETE coverage report says about the document it was given, in the fields of
// that document and of the catalog: nothing here is stated through the report's own
// reading of them (scripts/_coverage_report_build.py, scripts/_coverage_report_model.py).
module CoverageMeaning {
  import opened Common
  import opened CoverageResults
  import opened CoverageReport
  import opened CoverageNames

  // ------------------------------------------------------------- nothing was partial

  // A container's status text that is no complaint: none, blank, PASS, or the word passed.
  predicate NoComplaint(text: GateStatus) {
    text == NoText || text == Empty || text == Spaces || text == GatePass || text == Word(Passed)
  }

  // The tiers a document's evidence is taken from.
  ghost predicate HasTier(d: Document, t: RawTier) {
    if d.runtimes.Some? then exists b :: b in d.runtimes.value && b.tiers.Some? && t in b.tiers.value
    else d.top.tiers.Some? && t in d.top.tiers.value
  }

  // A complete report leaves nothing marked partial or complaining: not the document,
  // not one block, not one tier.
  lemma CompleteNothingPartial(catalog: Catalog, d: Document, expected: Option<string>)
    requires Complete(catalog, Some(ResultsOf(d)), expected)
    ensures !d.top.partial && NoComplaint(d.top.status)
    ensures d.runtimes.Some? ==> forall b :: b in d.runtimes.value ==> !b.partial && NoComplaint(b.status)
    ensures forall t :: HasTier(d, t) && t.RawTier? ==> !t.partial && NoComplaint(t.status)
  {
    var _ := CompleteMeans(catalog, d, expected);
    hide *;
    WholeMeans(d);
  }

  // A mark or a complaint is what makes a container partial.
  lemma MarkedExactly(flag: bool, status: GateStatus)
    ensures EnclosingPartial(flag, status) <==> flag || !NoComplaint(status)
  {
  }

  lemma WholeMeans(d: Document)
    requires NothingPartial(d)
    ensures !d.top.partial && NoComplaint(d.top.status)
    ensures d.runtimes.Some? ==> forall b :: b in d.runtimes.value ==> !b.partial && NoComplaint(b.status)
    ensures forall t :: HasTier(d, t) && t.RawTier? ==> !t.partial && NoComplaint(t.status)
  {
    forall flag, status ensures EnclosingPartial(flag, status) <==> flag || !NoComplaint(status) {
      MarkedExactly(flag, status);
    }
    hide EnclosingPartial, NoComplaint;
    forall t | HasTier(d, t) ensures t in TiersRead(d) {
      if d.runtimes.Some? {
        var b :| b in d.runtimes.value && b.tiers.Some? && t in b.tiers.value;
        assert t in Tiers(b);
      }
    }
  }

  // ------------------------------------------------------------- accepted outcomes

  // A pass, unless the policy names other words only; or such a word of the policy.
  predicate Acceptable(policy: Policy, s: Status) {
    || (s == Passed && (policy.accepted == None || Passed in policy.accepted.value
                        || forall w :: w in policy.accepted.value ==> !w.Other?))
    || (s.Other? && policy.accepted.Some? && s in policy.accepted.value)
  }

  lemma AcceptedExactly(policy: Policy, s: Status)
    ensures s in Accepted(policy) <==> Acceptable(policy, s)
  {
    if policy.accepted.Some? {
      var f := Filtered(policy.accepted.value);
      assert f != [] ==> f[0] in f;
      if w :| w in policy.accepted.value && w.Other? { assert w in f; }
      if Passed in policy.accepted.value { assert Passed in f; }
    }
    hide Filtered;
  }

  // ------------------------------------------------------------- where an outcome is from

  // The four lists a block may report a test in.
  datatype Place = InRecords | InTests | InCases | InDetails

  ghost predicate ListedIn(b: Block, place: Place, r: RawRecord) {
    match place
    case InRecords => b.records.Some? && r in b.records.value
    case InTests => b.tests.Some? && r in b.tests.value
    case InCases => b.tiers.Some? && exists t :: t in b.tiers.value && t.RawTier? && r in t.cases
    case InDetails => b.tiers.Some? && exists t :: t in b.tiers.value && t.RawTier? && r in t.details
  }

  // The status an entry shows for its test.
  function Shown(place: Place, r: RawRecord): Status
    requires r.RawRecord?
  {
    match place
    case InRecords => r.status
    case InTests =>
      if r.wasXfail && r.status == Skipped then Xfailed else if r.wasXfail && r.status == Passed then Xpassed else r.status
    case InDetails => if r.status == Other("") then Failed else r.status
    case InCases =>
      match r.gateStatus
      case NoText => Error
      case Empty => Error
      case Spaces => Other(" ")
      case GatePass => Passed
      case GateFail => Failed
      case GateTimeout => TimedOut
      case GateInterrupted => Interrupted
      case GateNotStarted => NotRun
      case Word(s) => s
  }

  // The outcome repeats the entry; what it leaves open is taken from around it.
  ghost predicate Repeats(o: Outcome, place: Place, r: RawRecord, mode: string, commit: Option<string>, hashes: Hashes) {
    && r.RawRecord? && r.nodeid == Some(o.nodeid) && o.nodeid != ""
    && o.status == Shown(place, r) && o.effects == r.effects && (r.partial ==> o.partial)
    && o.runtime == (if place == InRecords && r.runtime.Some? then r.runtime.value else mode)
    && o.commit == (if r.commit.Some? then r.commit else commit) && o.hashes == hashes + r.hashes
  }

  ghost predicate From(o: Outcome, b: Block, mode: string, commit: Option<string>, hashes: Hashes) {
    exists place, r :: ListedIn(b, place, r) && Repeats(o, place, r, mode, commit, hashes)
  }

  lemma {:induction false} FromRecords(o: Outcome, rs: seq<RawRecord>, mode: string, inh: Inherited, marks: map<string, bool>)
    returns (r: RawRecord)
    requires o in OfRecords(rs, mode, inh, marks)
    ensures r in rs && Repeats(o, InRecords, r, mode, inh.commit, inh.hashes)
  {
    var init, last := rs[..|rs| - 1], rs[|rs| - 1];
    assert rs == init + [last];
    if o in OfRecords(init, mode, inh, marks) { r := FromRecords(o, init, mode, inh, marks); } else { r := last; }
  }

  lemma {:induction false} FromTests(o: Outcome, rs: seq<RawRecord>, mode: string, inh: Inherited) returns (r: RawRecord)
    requires o in OfTests(rs, mode, inh)
    ensures r in rs && Repeats(o, InTests, r, mode, inh.commit, inh.hashes)
  {
    var init, last := rs[..|rs| - 1], rs[|rs| - 1];
    assert rs == init + [last];
    if o in OfTests(init, mode, inh) { r := FromTests(o, init, mode, inh); } else { r := last; }
  }

  lemma {:induction false} FromCases(o: Outcome, rs: seq<RawRecord>, mode: string, inh: Inherited) returns (r: RawRecord)
    requires o in OfCases(rs, mode, inh)
    ensures r in rs && Repeats(o, InCases, r, mode, inh.commit, inh.hashes)
  {
    var init, last := rs[..|rs| - 1], rs[|rs| - 1];
    assert rs == init + [last];
    if o in OfCases(init, mode, inh) { r := FromCases(o, init, mode, inh); } else { r := last; }
  }

  lemma {:induction false} FromDetails(o: Outcome, rs: seq<RawRecord>, mode: string, inh: Inherited, seen: set<string>)
    returns (r: RawRecord)
    requires o in OfDetails(rs, mode, inh, seen)
    ensures r in rs && Repeats(o, InDetails, r, mode, inh.commit, inh.hashes)
  {
    hide NormalizeNodeid;
    var init, last := rs[..|rs| - 1], rs[|rs| - 1];
    assert rs == init + [last];
    if o in OfDetails(init, mode, inh, seen) { r := FromDetails(o, init, mode, inh, seen); } else { r := last; }
  }

  lemma {:induction false} FromTiers(o: Outcome, tiers: seq<RawTier>, mode: string, inh: Inherited, seen: set<string>)
    returns (t: RawTier, place: Place, r: RawRecord)
    requires o in OfTiers(tiers, mode, inh, seen)
    ensures t in tiers && t.RawTier? && Repeats(o, place, r, mode, inh.commit, inh.hashes)
    ensures (place == InCases && r in t.cases) || (place == InDetails && r in t.details)
  {
    var init, last := tiers[..|tiers| - 1], tiers[|tiers| - 1];
    assert tiers == init + [last];
    hide Repeats, OfCases, OfDetails, TierPartial, SeenAfter;
    if o in OfTiers(init, mode, inh, seen) {
      t, place, r := FromTiers(o, init, mode, inh, seen);
    } else {
      t := last;
      var inside := inh.(partial := inh.partial || TierPartial(t));
      if o in OfCases(t.cases, mode, inside) {
        place := InCases;
        r := FromCases(o, t.cases, mode, inside);
      } else {
        place := InDetails;
        r := FromDetails(o, t.details, mode, inside, SeenAfter(tiers, seen));
      }
    }
  }

  lemma FromBlock(o: Outcome, b: Block, mode: string, inh: Inherited)
    requires o in OfBlock(b, mode, inh)
    ensures From(o, b, mode, inh.commit, inh.hashes + b.hashes)
  {
    var inside := inh.(hashes := inh.hashes + b.hashes);
    hide OfRecords, OfTests, OfTiers, Repeats, SeenIds;
    if o in OfRecords(Records(b), mode, inside, map[]) {
      var r := FromRecords(o, Records(b), mode, inside, map[]);
      assert ListedIn(b, InRecords, r);
    } else if o in OfTests(Tests(b), mode, inside) {
      var r := FromTests(o, Tests(b), mode, inside);
      assert ListedIn(b, InTests, r);
    } else {
      var t, place, r := FromTiers(o, Tiers(b), mode, inside, SeenIds(b));
      assert ListedIn(b, place, r);
    }
  }

  lemma {:induction false} FromBlocks(o: Outcome, blocks: seq<Block>, top: Block) returns (b: Block)
    requires o in OfBlocks(blocks, top)
    ensures b in blocks && From(o, b, ModeOf(b), b.commit, top.hashes + b.hashes)
  {
    hide OfBlock, From, ModeOf, InheritedBy;
    var init, last := blocks[..|blocks| - 1], blocks[|blocks| - 1];
    assert blocks == init + [last];
    if o in OfBlocks(init, top) {
      b := FromBlocks(o, init, top);
    } else {
      b := last;
      Inherits(b, top);
      FromBlock(o, b, ModeOf(b), InheritedBy(b, top));
    }
  }

  lemma Inherits(b: Block, top: Block)
    ensures InheritedBy(b, top).commit == b.commit && TopInherited(top).commit == top.commit
    ensures InheritedBy(b, top).hashes == top.hashes && TopInherited(top).hashes == top.hashes
  {
  }

  // A block or document that says it is of a runtime, in its mode text or its identity.
  predicate OfRuntime(b: Block, rt: string) {
    b.modeText == Some(rt) || (b.modeText == None && b.identity.Some? && b.identity.value.pyboyMode == Some(rt))
  }

  lemma ModeIs(b: Block, rt: string)
    requires rt != "unknown"
    ensures ModeOf(b) == rt <==> OfRuntime(b, rt)
  {
  }

  // One entry of the document: the block it is in, the list there, and the entry.
  datatype Entry = Entry(b: Block, place: Place, r: RawRecord)

  ghost predicate EntryOf(d: Document, e: Entry) {
    && e.r.RawRecord? && ListedIn(e.b, e.place, e.r)
    && if d.runtimes == None then e.b == d.top else e.b in d.runtimes.value || (e.b == d.top && e.place == InRecords)
  }

  // It speaks for a runtime: by its own word, else by its block's, else by the word of
  // all blocks.
  ghost predicate SpeaksFor(d: Document, e: Entry, rt: string)
    requires e.r.RawRecord?
  {
    if e.place == InRecords && e.r.runtime.Some? then e.r.runtime == Some(rt)
    else if d.runtimes.Some? && e.b !in d.runtimes.value then forall b :: b in d.runtimes.value ==> OfRuntime(b, rt)
    else OfRuntime(e.b, rt) || (d.runtimes.Some? && e.b == d.top && forall b :: b in d.runtimes.value ==> OfRuntime(b, rt))
  }

  ghost predicate ReportedBy(d: Document, o: Outcome, e: Entry) {
    && EntryOf(d, e) && e.r.nodeid == Some(o.nodeid) && o.nodeid != ""
    && o.status == Shown(e.place, e.r) && o.effects == e.r.effects && (e.r.partial ==> o.partial)
    && o.commit == (if e.r.commit.Some? then e.r.commit else e.b.commit)
    && o.hashes == d.top.hashes + e.b.hashes + e.r.hashes
  }

  lemma OutcomeReported(d: Document, o: Outcome, rt: string) returns (e: Entry)
    requires o in ResultsOf(d).outcomes && o.runtime == rt && rt != "unknown"
    ensures ReportedBy(d, o, e) && SpeaksFor(d, e, rt)
  {
    if d.runtimes.Some? {
      if o in OfBlocks(d.runtimes.value, d.top) { e := InOneBlock(d, o, rt); } else { e := InTopList(d, o, rt); }
    } else {
      e := InTopBlock(d, o, rt);
    }
    hide OfBlocks, OfBlock, OfRecords, RuntimesOf, PartialByMode, BlockConflicts, AnyBlockFailing, Modes, AllCommits, AllRuns,
      DefaultMode, ReportedBy, SpeaksFor;
  }

  lemma InOneBlock(d: Document, o: Outcome, rt: string) returns (e: Entry)
    requires d.runtimes.Some? && o in OfBlocks(d.runtimes.value, d.top) && o.runtime == rt && rt != "unknown"
    ensures ReportedBy(d, o, e) && SpeaksFor(d, e, rt)
  {
    var b := FromBlocks(o, d.runtimes.value, d.top);
    var place, r := TakeOrigin(o, b, ModeOf(b), b.commit, d.top.hashes + b.hashes);
    ModeIs(b, rt);
    e := Entry(b, place, r);
    hide OfBlocks, ListedIn, OfRuntime, ModeOf;
  }

  lemma InTopList(d: Document, o: Outcome, rt: string) returns (e: Entry)
    requires d.runtimes.Some? && o.runtime == rt && rt != "unknown"
    requires var blocks := d.runtimes.value;
      o in OfRecords(Records(d.top), DefaultMode(blocks), TopInherited(d.top), PartialByMode(blocks, d.top))
    ensures ReportedBy(d, o, e) && SpeaksFor(d, e, rt)
  {
    var blocks := d.runtimes.value;
    var r := FromRecords(o, Records(d.top), DefaultMode(blocks), TopInherited(d.top), PartialByMode(blocks, d.top));
    e := Entry(d.top, InRecords, r);
    Inherits(d.top, d.top);
    if r.runtime.None? { DefaultIs(blocks, rt); }
    assert d.top.hashes + d.top.hashes == d.top.hashes;
    assert ListedIn(d.top, InRecords, r);
    hide DefaultMode, OfRecords, PartialByMode, OfRuntime, ListedIn;
  }

  lemma InTopBlock(d: Document, o: Outcome, rt: string) returns (e: Entry)
    requires d.runtimes == None && o in ResultsOf(d).outcomes && o.runtime == rt && rt != "unknown"
    ensures ReportedBy(d, o, e) && SpeaksFor(d, e, rt)
  {
    hide OfBlock, AnyFailing, AllCommits, AllRuns, ListedIn, OfRuntime, ModeOf, Repeats;
    FromBlock(o, d.top, ModeOf(d.top), TopInherited(d.top));
    Inherits(d.top, d.top);
    var place, r := TakeOrigin(o, d.top, ModeOf(d.top), d.top.commit, d.top.hashes + d.top.hashes);
    ModeIs(d.top, rt);
    e := Entry(d.top, place, r);
    assert EntryOf(d, e) by { RepeatsRecord(o, e, ModeOf(d.top), d.top.hashes + d.top.hashes); }
    RepeatsMeans(d, o, e, ModeOf(d.top));
  }

  lemma RepeatsRecord(o: Outcome, e: Entry, mode: string, hashes: Hashes)
    requires Repeats(o, e.place, e.r, mode, e.b.commit, hashes)
    ensures e.r.RawRecord?
  {
  }

  lemma RepeatsMeans(d: Document, o: Outcome, e: Entry, mode: string)
    requires EntryOf(d, e)
    requires Repeats(o, e.place, e.r, mode, e.b.commit, d.top.hashes + e.b.hashes)
    ensures ReportedBy(d, o, e) && (e.place == InRecords && e.r.runtime.Some? ==> Some(o.runtime) == e.r.runtime)
    ensures !(e.place == InRecords && e.r.runtime.Some?) ==> o.runtime == mode
  {
    hide ListedIn;
  }

  lemma DefaultIs(blocks: seq<Block>, rt: string)
    requires DefaultMode(blocks) == rt && rt != "unknown"
    ensures forall e :: e in blocks ==> OfRuntime(e, rt)
  {
    forall e | e in blocks ensures OfRuntime(e, rt) { ModeIs(e, rt); }
  }

  lemma TakeOrigin(o: Outcome, b: Block, mode: string, commit: Option<string>, hashes: Hashes) returns (place: Place, r: RawRecord)
    requires From(o, b, mode, commit, hashes)
    ensures ListedIn(b, place, r) && Repeats(o, place, r, mode, commit, hashes)
  {
    hide ListedIn, Repeats;
    place, r :| ListedIn(b, place, r) && Repeats(o, place, r, mode, commit, hashes);
  }

  // ------------------------------------------------------------- what each check rests on

  // Two node ids name one test: the same from the first "::" on, and the same path but
  // for the direction of slashes and for leading "./".
  ghost predicate SameTest(a: string, b: string) {
    forall k: nat, l: nat :: TestPartAt(a, k) && TestPartAt(b, l) ==> PartsAlike(a, k, b, l)
  }

  lemma SameTestExactly(a: string, b: string)
    ensures NormalizeNodeid(a) == NormalizeNodeid(b) <==> SameTest(a, b)
  {
    SeparatorIsFirst(a);
    SeparatorIsFirst(b);
    var k, l := Separator(a), Separator(b);
    SameNodeExactly(a, b, k, l);
    hide TestPartAt, NormalizeNodeid, PartsAlike, Separator;
    assert TestPartAt(a, k) && TestPartAt(b, l);
    forall i: nat, j: nat | TestPartAt(a, i) && TestPartAt(b, j) ensures i == k && j == l {
      OneTestPart(a, i, k);
      OneTestPart(b, j, l);
    }
  }

  // The keys under which the hash of an asset may be recorded.
  predicate AssetKey(q: Requirement, key: string) {
    || key == q.role + "_" + q.kind || key == q.role + "_" + q.kind + "_sha1"
    || key == q.version + "_" + q.kind || key == q.version + "_" + q.kind + "_sha1" || key == q.kind + ":" + q.version
    || (q.kind == "fixture" && (key == q.role + "_input_fixture" || key == "input_fixture:" + q.version))
    || (q.role == "listen" && (key == q.kind || key == q.kind + "_sha1" || key == "input_fixture"))
  }

  lemma KeysAre(q: Requirement, key: string)
    ensures key in KeysFor(q) <==> AssetKey(q, key)
  {
  }

  lemma {:induction false} ObservedUnder(hashes: Hashes, keys: seq<string>) returns (key: string)
    requires FirstObserved(hashes, keys).Some?
    ensures key in keys && key in hashes && hashes[key] == FirstObserved(hashes, keys).value && hashes[key] != ""
  {
    if keys[0] in hashes && hashes[keys[0]] != "" { key := keys[0]; } else { key := ObservedUnder(hashes, keys[1..]); }
  }

  // An entry that carries one check: of the test and the runtime, not partial, showing an
  // accepted word, under the commit, with every declared asset and the declared effect.
  ghost predicate Carries(d: Document, policy: Policy, c: Case, rt: string, commit: string, e: Entry) {
    && EntryOf(d, e) && SpeaksFor(d, e, rt)
    && c.selector.Some? && e.r.nodeid.Some? && e.r.nodeid.value != "" && SameTest(e.r.nodeid.value, c.selector.value)
    && !e.r.partial && Acceptable(policy, Shown(e.place, e.r))
    && Some(commit) == (if e.r.commit.Some? then e.r.commit else if e.b.commit.Some? then e.b.commit else d.top.commit)
    && (c.effect.Some? ==> e.r.effects != [] && forall x :: x in e.r.effects ==> x == c.effect.value)
    && var hashes := d.top.hashes + e.b.hashes + e.r.hashes;
       forall q :: q in c.requirements ==>
         exists key :: AssetKey(q, key) && key in hashes && hashes[key] != "" && hashes[key] in q.accepted
  }

  // Behind a complete report stands, for every case and mandatory runtime, an entry of
  // the document that carries the check, all under one commit, the expected one if any.
  lemma CompleteRestsOnEntries(catalog: Catalog, d: Document, expected: Option<string>) returns (commit: string)
    requires Complete(catalog, Some(ResultsOf(d)), expected)
    ensures expected.Some? ==> expected == Some(commit)
    ensures forall c :: c in catalog.cases ==>
      && (exists e :: Carries(d, catalog.policy, c, "source", commit, e))
      && (exists e :: Carries(d, catalog.policy, c, "cython", commit, e))
  {
    commit := CompleteMeans(catalog, d, expected);
    assert MANDATORY[0] in MANDATORY && MANDATORY[1] in MANDATORY;
    hide Complete, ResultsOf, Stands, Carries;
    forall c | c in catalog.cases
      ensures exists e :: Carries(d, catalog.policy, c, "source", commit, e)
      ensures exists e :: Carries(d, catalog.policy, c, "cython", commit, e)
    {
      var e := CarriedBy(catalog, d, c, "source", commit);
      var f := CarriedBy(catalog, d, c, "cython", commit);
    }
  }

  lemma CarriedBy(catalog: Catalog, d: Document, c: Case, rt: string, commit: string) returns (e: Entry)
    requires Stands(catalog, c, rt, ResultsOf(d), commit) && (rt == "source" || rt == "cython")
    ensures Carries(d, catalog.policy, c, rt, commit, e)
  {
    var r := ResultsOf(d);
    TopCommit(d);
    var o :| StandsOn(catalog, c, rt, r, commit, o);
    StoodOn(catalog, c, rt, r, commit, o);
    hide StandsOn, ResultsOf;
    assert rt != "unknown";
    e := OutcomeReported(d, o, rt);
    hide EntryOf, SpeaksFor, NormalizeNodeid;
    AcceptedExactly(catalog.policy, o.status);
    SameTestExactly(o.nodeid, c.selector.value);
    hide SameTest, Acceptable, Accepted, Shown;
    forall q | q in c.requirements
      ensures exists key :: AssetKey(q, key) && key in o.hashes && o.hashes[key] != "" && o.hashes[key] in q.accepted
    {
      var key := ObservedUnder(o.hashes, KeysFor(q));
      KeysAre(q, key);
    }
  }

  lemma TopCommit(d: Document)
    ensures ResultsOf(d).commit == d.top.commit
  {
    hide OfBlocks, OfBlock, OfRecords, RuntimesOf, PartialByMode, BlockConflicts, AllCommits, AllRuns, DefaultMode;
  }

  lemma StoodOn(catalog: Catalog, c: Case, rt: string, r: Results, commit: string, o: Outcome)
    requires c.selector.Some? && StandsOn(catalog, c, rt, r, commit, o)
    ensures o in r.outcomes && o.runtime == rt && NormalizeNodeid(o.nodeid) == NormalizeNodeid(c.selector.value)
    ensures !o.partial && o.status in Accepted(catalog.policy)
    ensures Some(commit) == if o.commit.Some? then o.commit else r.commit
    ensures forall q :: q in c.requirements ==>
      FirstObserved(o.hashes, KeysFor(q)).Some? && FirstObserved(o.hashes, KeysFor(q)).value in q.accepted
    ensures c.effect.Some? ==> o.effects != [] && forall e :: e in o.effects ==> e == c.effect.value
  {
    hide NormalizeNodeid, KeysFor, FirstObserved, Accepted, Collected, BuildStatus, LookupIn;
    var found := LookupIn(r.outcomes, rt, NormalizeNodeid(c.selector.value));
    assert o in found;
  }

  // ------------------------------------------------------------- builds and collections

  // A block's identity fits the runtime and whatever build the policy names.
  predicate FitsBuild(b: Block, rt: string, policy: Policy) {
    && (b.identity.Some? && b.identity.value.pyboyMode.Some? ==> b.identity.value.pyboyMode == Some(rt))
    && (policy.revision.Some? ==> b.identity.Some? && b.identity.value.revision == policy.revision)
    && (policy.version.Some? ==> b.identity.Some? && b.identity.value.version == policy.version)
  }

  lemma BuildExactly(rt: string, r: Results, policy: Policy)
    ensures BuildStatus(rt, r, policy) == Tested <==>
      && rt in r.runtimes
      && var i := r.runtimes[rt];
         && (i.pyboyMode.Some? ==> i.pyboyMode == Some(rt))
         && (policy.revision.Some? ==> i.revision == policy.revision)
         && (policy.version.Some? ==> i.version == policy.version)
  {
  }

  // The identity recorded for a runtime is that of one of its blocks, or none when no
  // block of it has one.
  lemma {:induction false} IdentityFromBlocks(blocks: seq<Block>, rt: string) returns (b: Block)
    requires rt in RuntimesOf(blocks)
    ensures b in blocks && ModeOf(b) == rt
    ensures RuntimesOf(blocks)[rt] == if b.identity.Some? then b.identity.value else BARE
  {
    hide ModeOf;
    var init, last := blocks[..|blocks| - 1], blocks[|blocks| - 1];
    assert blocks == init + [last];
    if ModeOf(last) == rt && (last.identity.Some? || rt !in RuntimesOf(init)) {
      b := last;
    } else {
      b := IdentityFromBlocks(init, rt);
    }
  }

  // Blocks of one runtime that did not conflict all have one identity.
  lemma OneIdentity(d: Document, x: Block, y: Block)
    requires d.runtimes.Some? && ResultsOf(d).conflicts == {}
    requires x in d.runtimes.value && y in d.runtimes.value && ModeOf(x) == ModeOf(y)
    ensures x.identity == y.identity
  {
    var blocks, mode := d.runtimes.value, ModeOf(x);
    NoMergedBuilds(d);
    assert mode in Modes(blocks);
    PrintedIn(blocks, x);
    PrintedIn(blocks, y);
    hide PrintsOf, ModeOf, ResultsOf, Modes;
    AtMostOne(PrintsOf(blocks, mode), PrintOf(x), PrintOf(y));
  }

  lemma PrintedIn(blocks: seq<Block>, b: Block)
    requires b in blocks
    ensures PrintOf(b) in PrintsOf(blocks, ModeOf(b))
  {
    hide ModeOf;
  }

  lemma NoMergedBuilds(d: Document)
    requires d.runtimes.Some? && ResultsOf(d).conflicts == {}
    ensures forall mode :: mode in Modes(d.runtimes.value) ==> |PrintsOf(d.runtimes.value, mode)| <= 1
  {
    hide OfBlocks, OfRecords, RuntimesOf, PartialByMode, AllCommits, AllRuns, ModeOf, PrintsOf, AnyBlockFailing, DefaultMode, Modes;
    assert BlockConflicts(d.runtimes.value, d.top) == {};
    assert MergedBuilds(d.runtimes.value) == {};
    forall mode | mode in Modes(d.runtimes.value) ensures |PrintsOf(d.runtimes.value, mode)| <= 1 {
      assert ConflictingBlocks(mode) !in MergedBuilds(d.runtimes.value);
    }
  }

  // Behind a complete report with runtime blocks, every block of a mandatory runtime, of
  // which there is one at least, is of the build the policy names.
  lemma CompleteNamesBuilds(catalog: Catalog, d: Document, expected: Option<string>, rt: string)
    requires Complete(catalog, Some(ResultsOf(d)), expected) && (rt == "source" || rt == "cython")
    ensures d.runtimes.Some? ==>
      && (exists b :: b in d.runtimes.value && OfRuntime(b, rt))
      && forall b :: b in d.runtimes.value && OfRuntime(b, rt) ==> FitsBuild(b, rt, catalog.policy)
    ensures d.runtimes == None ==> OfRuntime(d.top, rt) && FitsBuild(d.top, rt, catalog.policy)
  {
    var r := ResultsOf(d);
    BuildTested(catalog, d, expected, rt);
    CleanSourceOf(catalog, d, expected);
    RuntimesAre(d);
    assert rt != "unknown";
    hide Complete, ResultsOf, OfRuntime, ModeOf;
    BuildExactly(rt, r, catalog.policy);
    if d.runtimes.Some? {
      var b := IdentityFromBlocks(d.runtimes.value, rt);
      ModeIs(b, rt);
      forall e | e in d.runtimes.value && OfRuntime(e, rt) ensures FitsBuild(e, rt, catalog.policy) {
        ModeIs(e, rt);
        OneIdentity(d, b, e);
      }
    } else {
      ModeIs(d.top, rt);
    }
    hide BuildStatus, RuntimesOf;
  }

  lemma CleanSourceOf(catalog: Catalog, d: Document, expected: Option<string>)
    requires Complete(catalog, Some(ResultsOf(d)), expected)
    ensures SourceClean(ResultsOf(d), expected) && ResultsOf(d).conflicts == {} && !ResultsOf(d).collectionFailed
  {
    hide ResultsOf, Reports, MechanicsComplete, CatalogClean;
  }

  lemma RuntimesAre(d: Document)
    ensures d.runtimes.Some? ==> ResultsOf(d).runtimes == RuntimesOf(d.runtimes.value)
    ensures d.runtimes == None && ResultsOf(d).runtimes != map[] ==>
      ResultsOf(d).runtimes == map[ModeOf(d.top) := if d.top.identity.Some? then d.top.identity.value else BARE]
  {
    hide OfBlocks, OfBlock, OfRecords, PartialByMode, BlockConflicts, AllCommits, AllRuns, DefaultMode, ModeOf, RuntimesOf;
  }

  lemma BuildTested(catalog: Catalog, d: Document, expected: Option<string>, rt: string)
    requires Complete(catalog, Some(ResultsOf(d)), expected) && (rt == "source" || rt == "cython")
    ensures BuildStatus(rt, ResultsOf(d), catalog.policy) == Tested
    ensures exists c :: c in catalog.cases && c.selector.Some? && Collected(ResultsOf(d), rt, c.selector.value)
  {
    var commit := CompleteMeans(catalog, d, expected);
    CasesExist(catalog, d, expected);
    assert MANDATORY[0] in MANDATORY && MANDATORY[1] in MANDATORY;
    hide Complete, ResultsOf, Collected, BuildStatus, Lookup, Accepted;
    var c := catalog.cases[0];
    assert Stands(catalog, c, rt, ResultsOf(d), commit);
  }

  lemma CasesExist(catalog: Catalog, d: Document, expected: Option<string>)
    requires Complete(catalog, Some(ResultsOf(d)), expected)
    ensures catalog.cases != []
  {
    var _ := AnyCommit(catalog, d, expected);
  }

  // A collection the document records for a runtime.
  ghost predicate CollectionOf(d: Document, rt: string, k: RawCollection) {
    && k.RawCollection?
    && if d.runtimes == None then OfRuntime(d.top, rt) && k in d.top.collections
       else
         || (k in d.top.collections && exists b :: b in d.runtimes.value && OfRuntime(b, rt))
         || exists b :: b in d.runtimes.value && OfRuntime(b, rt) && k in b.collections
  }

  // Behind a complete report no collection failed, and every case was collected in each
  // mandatory runtime.
  lemma CompleteWasCollected(catalog: Catalog, d: Document, expected: Option<string>, c: Case, rt: string)
    requires Complete(catalog, Some(ResultsOf(d)), expected) && c in catalog.cases && (rt == "source" || rt == "cython")
    ensures !d.top.collectionErrors
    ensures forall k :: CollectionOf(d, rt, k) ==> k.passing
    ensures c.selector.Some? && exists k, n :: CollectionOf(d, rt, k) && n in k.nodeids && SameTest(n, c.selector.value)
  {
    var commit := CompleteMeans(catalog, d, expected);
    CleanSourceOf(catalog, d, expected);
    assert MANDATORY[0] in MANDATORY && MANDATORY[1] in MANDATORY && rt != "unknown";
    assert Stands(catalog, c, rt, ResultsOf(d), commit);
    CollectionsOf(d, rt);
    TopErrors(d);
    hide Complete, ResultsOf, BuildStatus, Lookup, Accepted, CollectionOf, NormalizeNodeid, SameTest;
    assert Collected(ResultsOf(d), rt, c.selector.value);
    var e, n :| e in ResultsOf(d).collections && e.runtime == rt && n in e.nodeids
      && NormalizeNodeid(n) == NormalizeNodeid(c.selector.value);
    SameTestExactly(n, c.selector.value);
    var k :| CollectionOf(d, rt, k) && e == Evidence(rt, k.passing, k.nodeids);
    assert n in k.nodeids;
  }

  lemma TopErrors(d: Document)
    ensures d.top.collectionErrors ==> ResultsOf(d).collectionFailed
  {
    hide OfBlocks, OfBlock, OfRecords, PartialByMode, BlockConflicts, AllCommits, AllRuns, DefaultMode, ModeOf, RuntimesOf;
  }

  // The collections of a runtime are those the document records for it.
  lemma CollectionsOf(d: Document, rt: string)
    requires rt != "unknown"
    ensures forall e :: e in ResultsOf(d).collections && e.runtime == rt ==>
      exists k :: CollectionOf(d, rt, k) && e == Evidence(rt, k.passing, k.nodeids)
    ensures ResultsOf(d).collections != {} ==>
      forall k :: CollectionOf(d, rt, k) ==> Evidence(rt, k.passing, k.nodeids) in ResultsOf(d).collections
  {
    CollectionsAre(d);
    hide ResultsOf;
    if d.runtimes.Some? { CollectedInBlocks(d, rt); } else { CollectedAtTop(d, rt); }
    hide CollectedForAll, CollectedByBlocks, CoverageResults.CollectedFrom;
  }

  lemma CollectionsAre(d: Document)
    ensures ResultsOf(d).collections ==
      match d.runtimes
      case Some(blocks) => CollectedForAll(d.top.collections, Modes(blocks)) + CollectedByBlocks(blocks)
      case None => if HasEvidence(d.top) then CoverageResults.CollectedFrom(d.top.collections, ModeOf(d.top)) else {}
  {
    hide OfBlocks, OfBlock, OfRecords, PartialByMode, BlockConflicts, AllCommits, AllRuns, DefaultMode, ModeOf, RuntimesOf;
  }

  lemma CollectedInBlocks(d: Document, rt: string)
    requires rt != "unknown" && d.runtimes.Some?
    ensures var all := CollectedForAll(d.top.collections, Modes(d.runtimes.value)) + CollectedByBlocks(d.runtimes.value);
      && (forall e :: e in all && e.runtime == rt ==> exists k :: CollectionOf(d, rt, k) && e == Evidence(rt, k.passing, k.nodeids))
      && forall k :: CollectionOf(d, rt, k) ==> Evidence(rt, k.passing, k.nodeids) in all
  {
    forall b: Block ensures ModeOf(b) == rt <==> OfRuntime(b, rt) { ModeIs(b, rt); }
    hide ModeOf, OfRuntime;
    var blocks, top := d.runtimes.value, d.top.collections;
    forall k | CollectionOf(d, rt, k)
      ensures Evidence(rt, k.passing, k.nodeids) in CollectedForAll(top, Modes(blocks)) + CollectedByBlocks(blocks)
    {
      if b :| b in blocks && OfRuntime(b, rt) && k in b.collections {
        assert Evidence(ModeOf(b), k.passing, k.nodeids) in CollectedByBlocks(blocks);
      } else {
        var b :| b in blocks && OfRuntime(b, rt);
        assert ModeOf(b) in Modes(blocks);
      }
    }
    forall e | e in CollectedForAll(top, Modes(blocks)) + CollectedByBlocks(blocks) && e.runtime == rt
      ensures exists k :: CollectionOf(d, rt, k) && e == Evidence(rt, k.passing, k.nodeids)
    {
      if e in CollectedForAll(top, Modes(blocks)) {
        var k :| k in top && k.RawCollection? && e == Evidence(rt, k.passing, k.nodeids);
        assert CollectionOf(d, rt, k);
      } else {
        var b, k :| b in blocks && k in b.collections && k.RawCollection? && e == Evidence(ModeOf(b), k.passing, k.nodeids);
        assert CollectionOf(d, rt, k);
      }
    }
  }

  lemma CollectedAtTop(d: Document, rt: string)
    requires rt != "unknown" && d.runtimes == None
    ensures var all := CoverageResults.CollectedFrom(d.top.collections, ModeOf(d.top));
      && (forall e :: e in all && e.runtime == rt ==> exists k :: CollectionOf(d, rt, k) && e == Evidence(rt, k.passing, k.nodeids))
      && forall k :: CollectionOf(d, rt, k) ==> Evidence(rt, k.passing, k.nodeids) in all
  {
    ModeIs(d.top, rt);
    hide ModeOf, OfRuntime;
    forall e | e in CoverageResults.CollectedFrom(d.top.collections, ModeOf(d.top)) && e.runtime == rt
      ensures exists k :: CollectionOf(d, rt, k) && e == Evidence(rt, k.passing, k.nodeids)
    {
      var k :| k in d.top.collections && k.RawCollection? && e == Evidence(ModeOf(d.top), k.passing, k.nodeids);
      assert CollectionOf(d, rt, k);
    }
  }

  // ------------------------------------------------------------- the catalog's side

  // A complete report was asked for by a sound catalog: every case is identified, of a
  // declared dimension and known fixture, with its roles and both mandatory runtimes and
  // no other, and the pairing cases name exactly the expected tests.
  lemma CompleteWasAskedFor(catalog: Catalog, results: Option<Results>, expected: Option<string>)
    requires Complete(catalog, results, expected)
    ensures Pairing in catalog.dimensions && Mechanics in catalog.dimensions
    ensures forall c :: c in catalog.cases ==>
      && c.caseId.Some? && c.caseId.value != "" && c.dimension in catalog.dimensions && c.selector.Some?
      && c.knownFixture && c.rolesComplete && "source" in c.runtimes && "cython" in c.runtimes
      && forall rt :: rt in c.runtimes ==> rt == "source" || rt == "cython"
    ensures forall n :: n in catalog.expectedPairing <==>
      exists c :: c in catalog.cases && c.dimension == Pairing && c.selector.Some? && NormalizeNodeid(c.selector.value) == n
    ensures exists c :: c in catalog.cases && c.dimension == Pairing
  {
    CatalogIsClean(catalog, results, expected);
    PairingReported(catalog, results, expected);
    hide Complete, NormalizeNodeid;
    forall c | c in catalog.cases ensures !DeclarationError(catalog, c) && RuntimesComplete(c) {}
    assert MANDATORY[0] in MANDATORY && MANDATORY[1] in MANDATORY;
  }

  lemma CatalogIsClean(catalog: Catalog, results: Option<Results>, expected: Option<string>)
    requires Complete(catalog, results, expected)
    ensures CatalogClean(catalog)
  {
    hide CatalogClean, SourceClean, Reports, MechanicsComplete;
  }

  lemma PairingReported(catalog: Catalog, results: Option<Results>, expected: Option<string>)
    requires Complete(catalog, results, expected)
    ensures exists c :: c in catalog.cases && c.dimension == Pairing
  {
    hide CatalogClean, SourceClean, Reports, MechanicsComplete;
    var reports := Reports(catalog, catalog.cases, results, expected);
    var r :| r in reports && r.dimension == Pairing;
    var c := ReportedCase(catalog, catalog.cases, results, expected, r);
  }

  lemma {:induction false} ReportedCase(
      catalog: Catalog, cases: seq<Case>, results: Option<Results>, expected: Option<string>, r: CheckReport)
    returns (c: Case)
    requires r in Reports(catalog, cases, results, expected)
    ensures c in cases && c.dimension == r.dimension && c.caseId == r.caseId && c.selector == Some(r.selector)
  {
    hide ReportsOf;
    var init, last := cases[..|cases| - 1], cases[|cases| - 1];
    assert cases == init + [last];
    if r in Reports(catalog, init, results, expected) {
      c := ReportedCase(catalog, init, results, expected, r);
    } else {
      c := last;
      ReportedOf(catalog, last, last.runtimes, results, expected, r);
    }
  }

  lemma {:induction false} ReportedOf(
      catalog: Catalog, c: Case, runtimes: seq<string>, results: Option<Results>, expected: Option<string>, r: CheckReport)
    requires r in ReportsOf(catalog, c, runtimes, results, expected)
    ensures c.dimension == r.dimension && c.caseId == r.caseId && c.selector == Some(r.selector)
  {
    hide CheckStatus;
    if r in ReportsOf(catalog, c, runtimes[..|runtimes| - 1], results, expected) {
      ReportedOf(catalog, c, runtimes[..|runtimes| - 1], results, expected, r);
    }
  }

  // Every effect family of a complete report, by its first declaration, is excluded or is
  // tested by named cases, each a mechanics case of the catalog that declares the effect;
  // one of them at least is tested.
  ghost predicate FamilyShown(catalog: Catalog, f: Family) {
    f.scope == ScopeTested && f.evidence != [] && forall id :: id in f.evidence ==> Declares(catalog, id, f.effectId)
  }

  ghost predicate Declares(catalog: Catalog, id: string, effect: int) {
    && (exists c :: c in catalog.cases && c.caseId == Some(id) && c.dimension == Mechanics)
    && (exists c :: c in catalog.cases && c.caseId == Some(id) && c.effect == Some(effect))
  }

  predicate Opens(families: seq<Family>, i: nat)
    requires i < |families|
  {
    forall j :: 0 <= j < i ==> families[j].effectId != families[i].effectId
  }

  lemma CompleteShowsFamilies(catalog: Catalog, results: Option<Results>, expected: Option<string>)
    requires Complete(catalog, results, expected)
    ensures exists i :: 0 <= i < |catalog.families| && FamilyShown(catalog, catalog.families[i])
    ensures forall i :: 0 <= i < |catalog.families| && Opens(catalog.families, i) ==>
      catalog.families[i].scope == ScopeExcluded || FamilyShown(catalog, catalog.families[i])
  {
    hide CatalogClean, SourceClean, Reports, Credited, DeclaredEffect, FamilyShown;
    var reports := Reports(catalog, catalog.cases, results, expected);
    forall f | FamilyTested(catalog, reports, f) ensures FamilyShown(catalog, f) {
      TestedFamilyShown(catalog, results, expected, f);
    }
    hide FamilyTested;
    assert forall i :: 0 <= i < |catalog.families| ==> (Opens(catalog.families, i) <==> First(catalog.families, i));
  }

  lemma TestedFamilyShown(catalog: Catalog, results: Option<Results>, expected: Option<string>, f: Family)
    requires FamilyTested(catalog, Reports(catalog, catalog.cases, results, expected), f)
    ensures FamilyShown(catalog, f)
  {
    hide Reports, CatalogValid, DeclaredEffect;
    var reports := Reports(catalog, catalog.cases, results, expected);
    forall id | id in f.evidence ensures Declares(catalog, id, f.effectId) {
      assert MANDATORY[0] in MANDATORY;
      var r :| r in reports && r.dimension == Mechanics && r.caseId == Some(id) && r.runtime == MANDATORY[0];
      var c := ReportedCase(catalog, catalog.cases, results, expected, r);
      var e := DeclaredBy(catalog.cases, id);
    }
  }

  lemma {:induction false} DeclaredBy(cases: seq<Case>, id: string) returns (e: Case)
    requires DeclaredEffect(cases, id).Some?
    ensures e in cases && e.caseId == Some(id) && e.effect == DeclaredEffect(cases, id)
  {
    var init, last := cases[..|cases| - 1], cases[|cases| - 1];
    assert cases == init + [last];
    if last.caseId == Some(id) { e := last; } else { e := DeclaredBy(init, id); }
  }

  // ------------------------------------------------------------- one record, one commit

  // A lookup finds every matching outcome, as often as it was collected.
  lemma {:induction false} LookupCounts(outcomes: seq<Outcome>, rt: string, target: string, o: Outcome)
    ensures multiset(LookupIn(outcomes, rt, target))[o]
      == if o.runtime == rt && NormalizeNodeid(o.nodeid) == target then multiset(outcomes)[o] else 0
  {
    hide NormalizeNodeid;
    if outcomes != [] {
      var init, last := outcomes[..|outcomes| - 1], outcomes[|outcomes| - 1];
      assert outcomes == init + [last];
      LookupCounts(init, rt, target, o);
    }
  }

  // Behind a complete report no block, no outcome and not the document itself names
  // another commit.
  lemma CompleteNamesOneCommit(catalog: Catalog, d: Document, expected: Option<string>) returns (commit: string)
    requires Complete(catalog, Some(ResultsOf(d)), expected)
    ensures expected.Some? ==> expected == Some(commit)
    ensures d.top.commit.Some? ==> d.top.commit == Some(commit)
    ensures d.runtimes.Some? ==> forall b :: b in d.runtimes.value && b.commit.Some? ==> b.commit == Some(commit)
    ensures forall o :: o in ResultsOf(d).outcomes && o.commit.Some? ==> o.commit == Some(commit)
  {
    commit := AnyCommit(catalog, d, expected);
    CleanSourceOf(catalog, d, expected);
    TopCommit(d);
    BlockCommitsAre(d);
    hide Complete, ResultsOf, AllCommits;
    var r := ResultsOf(d);
    forall x | x in AllCommits(r) ensures x == commit { NoConflictOneCommit(d, x, commit); }
    KnownCommits(r);
    if d.runtimes.Some? {
      forall b | b in d.runtimes.value && b.commit.Some? ensures b.commit.value in r.blockCommits {}
    }
  }

  lemma KnownCommits(r: Results)
    ensures r.commit.Some? ==> r.commit.value in AllCommits(r)
    ensures forall x :: x in r.blockCommits ==> x in AllCommits(r)
    ensures forall o :: o in r.outcomes && o.commit.Some? ==> o.commit.value in AllCommits(r)
  {
  }

  lemma BlockCommitsAre(d: Document)
    ensures d.runtimes.Some? ==> ResultsOf(d).blockCommits == Commits(d.runtimes.value)
  {
    hide OfBlocks, OfBlock, OfRecords, PartialByMode, BlockConflicts, AllCommits, AllRuns, DefaultMode, ModeOf, RuntimesOf;
  }

  // ------------------------------------------------------------- what a failed check says

  // A declaration that cannot be relied on: unnamed, of an unknown dimension, runtime or
  // fixture, without a runtime or a test, or otherwise invalid.
  predicate BadDeclaration(catalog: Catalog, c: Case) {
    || c.caseId == None || c.caseId == Some("") || c.dimension !in catalog.dimensions || |c.runtimes| == 0
    || (exists rt :: rt in c.runtimes && rt != "source" && rt != "cython")
    || !c.knownFixture || c.selector == None || !c.otherwiseValid
  }

  // One bad declaration of a case id makes every check of that id a catalog error,
  // whatever was recorded.
  lemma BadDeclarationSays(
      catalog: Catalog, c: Case, bad: Case, rt: string, results: Option<Results>, expected: Option<string>)
    requires c.selector.Some? && c.caseId.Some?
    requires bad in catalog.cases && bad.caseId == c.caseId && BadDeclaration(catalog, bad)
    ensures CheckStatus(catalog, c, rt, results, expected) == CatalogError
  {
    assert forall x :: x in MANDATORY <==> x == "source" || x == "cython";
    assert DeclarationError(catalog, bad);
    hide EvaluateCase, Lookup, DeclarationError;
  }

  // A check without results, without a record, with more than one, or with one that is
  // partial or shows no accepted word says so, before anything else is looked at.
  lemma RecordFailureSays(catalog: Catalog, c: Case, rt: string, results: Option<Results>, expected: Option<string>)
    requires c.selector.Some? && !Discredited(catalog, c)
    ensures var s := CheckStatus(catalog, c, rt, results, expected);
      && (results == None ==> s == Missing)
      && (results.Some? ==>
            var found := Lookup(results.value, rt, c.selector.value);
            && (|found| == 0 ==> s == Missing) && (|found| > 1 ==> s == Duplicate)
            && (|found| == 1 && found[0].partial ==> s == Partial)
            && (|found| == 1 && !found[0].partial && !Acceptable(catalog.policy, found[0].status) ==>
                  var o := found[0].status; s == if o == Passed || o == Tested || o.Other? then Unaccepted else o))
  {
    if results.Some? && |Lookup(results.value, rt, c.selector.value)| == 1 {
      AcceptedExactly(catalog.policy, Lookup(results.value, rt, c.selector.value)[0].status);
    }
    hide Lookup, Accepted, Acceptable, Collected, BuildStatus, CheckInputs, CheckEffect, Discredited;
  }

  // With one accepted record: a refused merge or another commit is a mismatch, no commit
  // is unidentified, an uncollected test is called so; then the assets and the effect, of
  // which a wrong one is a mismatch and a missing one unidentified.
  lemma EvidenceFailureSays(catalog: Catalog, c: Case, rt: string, r: Results, expected: Option<string>, o: Outcome)
    requires c.selector.Some? && !Discredited(catalog, c) && Lookup(r, rt, c.selector.value) == [o]
    requires !o.partial && Acceptable(catalog.policy, o.status)
    ensures var s := CheckStatus(catalog, c, rt, Some(r), expected);
      var commit := if o.commit.Some? then o.commit else r.commit;
      var fits := !r.mergeConflict && BuildStatus(rt, r, catalog.policy) == Tested;
      var held := fits && commit.Some? && (expected.Some? ==> commit == expected);
      var inputs := held && Collected(r, rt, c.selector.value);
      && (r.mergeConflict ==> s == Mismatched)
      && (!r.mergeConflict && !fits ==> s == BuildStatus(rt, r, catalog.policy))
      && (fits && commit == None ==> s == Unidentified)
      && (fits && commit.Some? && expected.Some? && commit != expected ==> s == Mismatched)
      && (held && !inputs ==> s == Collecting)
      && (inputs ==> s == if CheckInputs(c, o.hashes) != Tested then CheckInputs(c, o.hashes) else CheckEffect(c, o))
  {
    AcceptedExactly(catalog.policy, o.status);
    hide Lookup, Accepted, Acceptable, Collected, BuildStatus, CheckInputs, CheckEffect, Discredited;
  }

  lemma InputFailureSays(c: Case, o: Outcome, rt: string, r: Results, policy: Policy)
    ensures CheckEffect(c, o) == (if c.effect.Some? && o.effects == [] then Unidentified
                                  else if c.effect.Some? && exists e :: e in o.effects && e != c.effect.value then Mismatched else Tested)
    ensures (exists q :: q in c.requirements && AssetHash(o.hashes, q).Some? && AssetHash(o.hashes, q).value !in q.accepted) ==>
      CheckInputs(c, o.hashes) == Mismatched
    ensures CheckInputs(c, o.hashes) == Unidentified ==> exists q :: q in c.requirements && AssetHash(o.hashes, q) == None
    ensures rt !in r.runtimes ==> BuildStatus(rt, r, policy) == Unidentified
    ensures rt in r.runtimes && r.runtimes[rt].pyboyMode.Some? && r.runtimes[rt].pyboyMode != Some(rt) ==>
      BuildStatus(rt, r, policy) == Mismatched
  {
    hide FirstObserved, KeysFor;
  }

  function AssetHash(hashes: Hashes, q: Requirement): Option<string> { FirstObserved(hashes, KeysFor(q)) }

  // The hash observed for an asset is that of the first key in order that has one.
  lemma {:induction false} FirstKeyWins(hashes: Hashes, keys: seq<string>, i: nat)
    requires i < |keys| && keys[i] in hashes && hashes[keys[i]] != ""
    requires forall j :: 0 <= j < i ==> !(keys[j] in hashes && hashes[keys[j]] != "")
    ensures FirstObserved(hashes, keys) == Some(hashes[keys[i]])
  {
    if i > 0 { FirstKeyWins(hashes, keys[1..], i - 1); }
  }
}
