// Normalising one results document into terminal outcomes and identity evidence
// (scripts/_coverage_report_model.py). Texts are read as truthy or absent, as the
// reader does: an empty commit, run id or runtime counts as none.
module CoverageResults {
  import opened Common

  // A lower-case outcome or report status. `Tested` is the report's own mark.
  datatype Status =
    | Passed | Tested
    | Missing | Duplicate | Mismatched | Unidentified | Unaccepted | Partial | Collecting
    | Skipped | Xfailed | Xpassed | Failed | Error | TimedOut | Interrupted | NotRun | CatalogError
    | Other(text: string)

  // The status field of a gate container or row.
  datatype GateStatus =
    | NoText | Empty | Spaces
    | GatePass | GateFail | GateTimeout | GateInterrupted | GateNotStarted
    | Word(status: Status)

  function StatusFromGate(raw: GateStatus): Status {
    match raw
    case NoText | Empty => Error
    case Spaces => Other(" ")
    case GatePass => Passed
    case GateFail => Failed
    case GateTimeout => TimedOut
    case GateInterrupted => Interrupted
    case GateNotStarted => NotRun
    case Word(s) => s
  }

  // A container that is marked partial, or whose status is anything but a pass,
  // makes everything in it partial.
  predicate EnclosingPartial(flag: bool, status: GateStatus) {
    flag || (!status.NoText? && !status.Empty? && !status.Spaces? && StatusFromGate(status) != Passed)
  }

  type Hashes = map<string, string>

  datatype RawRecord =
    | NotARecord
    | RawRecord(
        nodeid: Option<string>, status: Status, gateStatus: GateStatus, wasXfail: bool, runtime: Option<string>,
        partial: bool, commit: Option<string>, runId: Option<string>, hashes: Hashes, effects: seq<int>)

  datatype RawTier =
    | NotATier
    | RawTier(partial: bool, status: GateStatus, cases: seq<RawRecord>, details: seq<RawRecord>)

  datatype RawCollection = NotACollection | RawCollection(passing: bool, nodeids: seq<string>)

  datatype Identity = Identity(
    pyboyMode: Option<string>, revision: Option<string>, version: Option<string>, rest: string)

  const BARE := Identity(None, None, None, "")

  datatype Block = Block(
    modeText: Option<string>, hasRuntime: bool, identity: Option<Identity>,
    partial: bool, status: GateStatus, runId: Option<string>, commit: Option<string>,
    collectionErrors: bool, collections: seq<RawCollection>,
    records: Option<seq<RawRecord>>, tests: Option<seq<RawRecord>>, tiers: Option<seq<RawTier>>, hashes: Hashes)

  // The document's own fields, and its runtime blocks when it lists any.
  datatype Document = Document(top: Block, runtimes: Option<seq<Block>>)

  datatype Outcome = Outcome(
    nodeid: string, status: Status, runtime: string, partial: bool,
    commit: Option<string>, runId: Option<string>, hashes: Hashes, effects: seq<int>)

  datatype Evidence = Evidence(runtime: string, passing: bool, nodeids: seq<string>)

  datatype Conflict = PartialTier | PartialBlocks | ConflictingBlocks(mode: string) | MixedCommits | MixedRuns

  datatype Results = Results(
    runId: Option<string>, commit: Option<string>, partial: bool,
    runtimes: map<string, Identity>, outcomes: seq<Outcome>,
    collectionFailed: bool, collections: set<Evidence>,
    blockRunIds: set<string>, blockCommits: set<string>,
    missingCommit: bool, conflicts: set<Conflict>, mergeConflict: bool)

  // ------------------------------------------------------------------ node ids

  function Slashed(path: string): string {
    seq(|path|, i requires 0 <= i < |path| => if path[i] == '\\' then '/' else path[i])
  }

  function WithoutDot(path: string): string
    decreases |path|
  {
    if |path| >= 2 && path[..2] == "./" then WithoutDot(path[2..]) else path
  }

  // Where the first "::" starts, or the length when there is none.
  function Separator(nodeid: string): (k: nat)
    ensures k <= |nodeid| && (k < |nodeid| ==> k + 2 <= |nodeid|)
  {
    if |nodeid| < 2 then |nodeid|
    else if nodeid[..2] == "::" then 0
    else 1 + Separator(nodeid[1..])
  }

  function NormalizeNodeid(nodeid: string): string {
    var k := Separator(nodeid);
    WithoutDot(Slashed(nodeid[..k])) + nodeid[k..]
  }

  // ------------------------------------------------------------------ outcomes

  predicate Named(r: RawRecord) { r.RawRecord? && r.nodeid.Some? && r.nodeid.value != "" }

  function OrElse<T>(own: Option<T>, inherited: Option<T>): Option<T> { if own.Some? then own else inherited }

  // What every record of a block inherits unless it says otherwise.
  datatype Inherited = Inherited(partial: bool, commit: Option<string>, runId: Option<string>, hashes: Hashes)

  function Normalise(r: RawRecord, status: Status, runtime: string, inherited: Inherited): Outcome
    requires Named(r)
  {
    Outcome(r.nodeid.value, status, runtime, r.partial || inherited.partial, OrElse(r.commit, inherited.commit),
            OrElse(r.runId, inherited.runId), inherited.hashes + r.hashes, r.effects)
  }

  function RecordRuntime(r: RawRecord, mode: string): string
    requires r.RawRecord?
  {
    if r.runtime.Some? then r.runtime.value else mode
  }

  function PartialIn(byRuntime: map<string, bool>, runtime: string): bool {
    runtime in byRuntime && byRuntime[runtime]
  }

  function OfRecord(r: RawRecord, mode: string, inherited: Inherited, byRuntime: map<string, bool>): seq<Outcome> {
    if !Named(r) then []
    else
      var runtime := RecordRuntime(r, mode);
      [Normalise(r, r.status, runtime, inherited.(partial := inherited.partial || PartialIn(byRuntime, runtime)))]
  }

  function OfRecords(rs: seq<RawRecord>, mode: string, inherited: Inherited, byRuntime: map<string, bool>): seq<Outcome> {
    if rs == [] then []
    else OfRecords(rs[..|rs| - 1], mode, inherited, byRuntime) + OfRecord(rs[|rs| - 1], mode, inherited, byRuntime)
  }

  function TestStatus(r: RawRecord): Status
    requires r.RawRecord?
  {
    if r.wasXfail && r.status == Skipped then Xfailed
    else if r.wasXfail && r.status == Passed then Xpassed
    else r.status
  }

  function OfTests(rs: seq<RawRecord>, mode: string, inherited: Inherited): seq<Outcome> {
    if rs == [] then []
    else
      var last := rs[|rs| - 1];
      OfTests(rs[..|rs| - 1], mode, inherited)
        + if Named(last) then [Normalise(last, TestStatus(last), mode, inherited)] else []
  }

  function OfCases(rs: seq<RawRecord>, mode: string, inherited: Inherited): seq<Outcome> {
    if rs == [] then []
    else
      var last := rs[|rs| - 1];
      OfCases(rs[..|rs| - 1], mode, inherited)
        + if Named(last) then [Normalise(last, StatusFromGate(last.gateStatus), mode, inherited)] else []
  }

  function DetailStatus(s: Status): Status { if s == Other("") then Failed else s }

  // Failure details count only for node ids nothing else has reported.
  function OfDetails(rs: seq<RawRecord>, mode: string, inherited: Inherited, seen: set<string>): seq<Outcome> {
    if rs == [] then []
    else
      var last := rs[|rs| - 1];
      OfDetails(rs[..|rs| - 1], mode, inherited, seen)
        + if Named(last) && NormalizeNodeid(last.nodeid.value) !in seen
          then [Normalise(last, DetailStatus(last.status), mode, inherited)] else []
  }

  function Ids(rs: seq<RawRecord>): set<string> {
    set r | r in rs && Named(r) :: NormalizeNodeid(r.nodeid.value)
  }

  predicate TierPartial(t: RawTier) { t.RawTier? && EnclosingPartial(t.partial, t.status) }

  function SeenAfter(tiers: seq<RawTier>, seen: set<string>): set<string> {
    if tiers == [] then seen
    else SeenAfter(tiers[..|tiers| - 1], seen) + if tiers[|tiers| - 1].RawTier? then Ids(tiers[|tiers| - 1].cases) else {}
  }

  function OfTier(t: RawTier, mode: string, inherited: Inherited, seen: set<string>): seq<Outcome> {
    if t.NotATier? then []
    else
      var inside := inherited.(partial := inherited.partial || TierPartial(t));
      OfCases(t.cases, mode, inside) + OfDetails(t.details, mode, inside, seen)
  }

  function OfTiers(tiers: seq<RawTier>, mode: string, inherited: Inherited, seen: set<string>): seq<Outcome> {
    if tiers == [] then []
    else
      OfTiers(tiers[..|tiers| - 1], mode, inherited, seen)
        + OfTier(tiers[|tiers| - 1], mode, inherited, SeenAfter(tiers, seen))
  }

  function Records(b: Block): seq<RawRecord> { if b.records.Some? then b.records.value else [] }

  function Tests(b: Block): seq<RawRecord> { if b.tests.Some? then b.tests.value else [] }

  function Tiers(b: Block): seq<RawTier> { if b.tiers.Some? then b.tiers.value else [] }

  // Records whose node id is a text take part in `seen`, the empty text included.
  function SeenIds(b: Block): set<string> {
    (set r | r in Records(b) && r.RawRecord? && r.nodeid.Some? :: NormalizeNodeid(r.nodeid.value)) + Ids(Tests(b))
  }

  // All outcomes of one block, in the order they are collected.
  function OfBlock(b: Block, mode: string, inherited: Inherited): seq<Outcome> {
    var inside := inherited.(hashes := inherited.hashes + b.hashes);
    OfRecords(Records(b), mode, inside, map[])
      + OfTests(Tests(b), mode, inside)
      + OfTiers(Tiers(b), mode, inside, SeenIds(b))
  }

  predicate AnyTierPartial(tiers: seq<RawTier>) { exists t :: t in tiers && TierPartial(t) }

  // ---------------------------------------------------------------- whole documents

  function ModeOf(b: Block): string {
    if b.modeText.Some? then b.modeText.value
    else if b.identity.Some? && b.identity.value.pyboyMode.Some? then b.identity.value.pyboyMode.value
    else "unknown"
  }

  predicate BlockPartial(b: Block) { EnclosingPartial(b.partial, b.status) }

  function InheritedBy(b: Block, top: Block): Inherited {
    Inherited(BlockPartial(b) || BlockPartial(top), b.commit, b.runId, top.hashes)
  }

  function OfBlocks(blocks: seq<Block>, top: Block): seq<Outcome> {
    if blocks == [] then []
    else
      var b := blocks[|blocks| - 1];
      OfBlocks(blocks[..|blocks| - 1], top) + OfBlock(b, ModeOf(b), InheritedBy(b, top))
  }

  function Modes(blocks: seq<Block>): set<string> { set b | b in blocks :: ModeOf(b) }

  function PartialByMode(blocks: seq<Block>, top: Block): map<string, bool> {
    if blocks == [] then map[]
    else
      var b, before := blocks[|blocks| - 1], PartialByMode(blocks[..|blocks| - 1], top);
      before[ModeOf(b) := PartialIn(before, ModeOf(b)) || BlockPartial(b) || BlockPartial(top)]
  }

  function WithIdentity(runtimes: map<string, Identity>, b: Block): map<string, Identity> {
    if b.identity.Some? then runtimes[ModeOf(b) := b.identity.value]
    else if ModeOf(b) !in runtimes then runtimes[ModeOf(b) := BARE]
    else runtimes
  }

  function RuntimesOf(blocks: seq<Block>): map<string, Identity> {
    if blocks == [] then map[] else WithIdentity(RuntimesOf(blocks[..|blocks| - 1]), blocks[|blocks| - 1])
  }

  function Given(o: Option<string>): set<string> { if o.Some? then {o.value} else {} }

  function RunIds(blocks: seq<Block>): set<string> { set b | b in blocks && b.runId.Some? :: b.runId.value }

  function Commits(blocks: seq<Block>): set<string> { set b | b in blocks && b.commit.Some? :: b.commit.value }

  datatype Print = Print(runId: Option<string>, commit: Option<string>, identity: Option<Identity>)

  function PrintOf(b: Block): Print { Print(b.runId, b.commit, b.identity) }

  function PrintsOf(blocks: seq<Block>, mode: string): set<Print> {
    set b | b in blocks && ModeOf(b) == mode :: PrintOf(b)
  }

  predicate AnyBlockTierPartial(blocks: seq<Block>) { exists b :: b in blocks && AnyTierPartial(Tiers(b)) }

  predicate AnyPartial(blocks: seq<Block>, top: Block) {
    BlockPartial(top) || exists b :: b in blocks && BlockPartial(b)
  }

  function MergedBuilds(blocks: seq<Block>): set<Conflict> {
    set mode | mode in Modes(blocks) && |PrintsOf(blocks, mode)| > 1 :: ConflictingBlocks(mode)
  }

  function If(b: bool, c: Conflict): set<Conflict> { if b then {c} else {} }

  // What the blocks of a document say against merging them.
  function BlockConflicts(blocks: seq<Block>, top: Block): set<Conflict> {
    If(AnyBlockTierPartial(blocks), PartialTier) + If(AnyPartial(blocks, top), PartialBlocks) + MergedBuilds(blocks)
  }

  function CollectedFrom(raw: seq<RawCollection>, runtime: string): set<Evidence> {
    set c | c in raw && c.RawCollection? :: Evidence(runtime, c.passing, c.nodeids)
  }

  // Document-level collections count for every mode its blocks have.
  function CollectedForAll(raw: seq<RawCollection>, modes: set<string>): set<Evidence> {
    set mode, c | mode in modes && c in raw && c.RawCollection? :: Evidence(mode, c.passing, c.nodeids)
  }

  function CollectedByBlocks(blocks: seq<Block>): set<Evidence> {
    set b, c | b in blocks && c in b.collections && c.RawCollection? :: Evidence(ModeOf(b), c.passing, c.nodeids)
  }

  predicate AnyBlockFailing(blocks: seq<Block>) {
    exists b :: b in blocks && (b.collectionErrors || AnyFailing(b.collections))
  }

  predicate AnyFailing(raw: seq<RawCollection>) { exists c :: c in raw && c.RawCollection? && !c.passing }

  function OutcomeCommits(outcomes: seq<Outcome>): set<string> {
    set o | o in outcomes && o.commit.Some? :: o.commit.value
  }

  function OutcomeRuns(outcomes: seq<Outcome>): set<string> {
    set o | o in outcomes && o.runId.Some? :: o.runId.value
  }

  function AllCommits(r: Results): set<string> { OutcomeCommits(r.outcomes) + r.blockCommits + Given(r.commit) }

  function AllRuns(r: Results): set<string> { OutcomeRuns(r.outcomes) + r.blockRunIds + Given(r.runId) }

  // The last step: one commit and one run in all, or the merge is refused.
  function Finalised(r: Results): Results {
    var conflicts := r.conflicts
      + If(|AllCommits(r)| > 1, MixedCommits) + If(|AllRuns(r)| > 1, MixedRuns);
    r.(conflicts := conflicts,
       missingCommit := r.outcomes != [] && AllCommits(r) == {},
       mergeConflict := conflicts != {})
  }

  function StartOf(d: Document): Results {
    Results(d.top.runId, d.top.commit, BlockPartial(d.top), map[], [], d.top.collectionErrors, {}, {}, {}, false, {}, false)
  }

  function DefaultMode(blocks: seq<Block>): string {
    if blocks != [] && forall b :: b in blocks ==> ModeOf(b) == ModeOf(blocks[0]) then ModeOf(blocks[0]) else "unknown"
  }

  function TopInherited(top: Block): Inherited { Inherited(BlockPartial(top), top.commit, top.runId, top.hashes) }

  function ResultsOfBlocks(d: Document, blocks: seq<Block>): Results {
    var top := d.top;
    Finalised(StartOf(d).(
      runtimes := RuntimesOf(blocks),
      outcomes := OfBlocks(blocks, top)
        + OfRecords(Records(top), DefaultMode(blocks), TopInherited(top), PartialByMode(blocks, top)),
      collectionFailed := top.collectionErrors || (Modes(blocks) != {} && AnyFailing(top.collections)) || AnyBlockFailing(blocks),
      collections := CollectedForAll(top.collections, Modes(blocks)) + CollectedByBlocks(blocks),
      blockRunIds := RunIds(blocks),
      blockCommits := Commits(blocks),
      conflicts := BlockConflicts(blocks, top)))
  }

  function ResultsOfTop(d: Document): Results {
    var top := d.top;
    Finalised(StartOf(d).(
      runtimes := WithIdentity(map[], top),
      outcomes := OfBlock(top, ModeOf(top), TopInherited(top)),
      collectionFailed := top.collectionErrors || AnyFailing(top.collections),
      collections := CollectedFrom(top.collections, ModeOf(top)),
      conflicts := If(AnyTierPartial(Tiers(top)), PartialTier)))
  }

  predicate HasEvidence(top: Block) { top.tiers.Some? || top.hasRuntime || top.records.Some? || top.tests.Some? }

  // What a document normalises to.
  function ResultsOf(d: Document): Results {
    match d.runtimes
    case Some(blocks) => ResultsOfBlocks(d, blocks)
    case None => if HasEvidence(d.top) then ResultsOfTop(d) else StartOf(d)
  }

  function Lookup(r: Results, runtime: string, selector: string): seq<Outcome> {
    LookupIn(r.outcomes, runtime, NormalizeNodeid(selector))
  }

  function LookupIn(outcomes: seq<Outcome>, runtime: string, target: string): (found: seq<Outcome>)
    ensures forall o :: o in found <==> o in outcomes && o.runtime == runtime && NormalizeNodeid(o.nodeid) == target
  {
    if outcomes == [] then []
    else
      var rest, last := LookupIn(outcomes[..|outcomes| - 1], runtime, target), outcomes[|outcomes| - 1];
      assert outcomes == outcomes[..|outcomes| - 1] + [last];
      if last.runtime == runtime && NormalizeNodeid(last.nodeid) == target then rest + [last] else rest
  }

  // --------------------------------------------- what partial containers cannot hide

  // Every tier a document's evidence is read from.
  function TiersRead(d: Document): set<RawTier> {
    match d.runtimes
    case Some(blocks) => set b, t | b in blocks && t in Tiers(b) :: t
    case None => set t | t in Tiers(d.top)
  }

  // Nothing in the document was partial: not itself, no block and no tier.
  ghost predicate NothingPartial(d: Document) {
    && !BlockPartial(d.top)
    && (d.runtimes.Some? ==> forall b :: b in d.runtimes.value ==> !BlockPartial(b))
    && (forall t :: t in TiersRead(d) ==> !TierPartial(t))
  }

  // A document without conflicts and not itself partial holds nothing partial, so a
  // single partial tier, however many passing rows surround it, refuses the merge.
  lemma NoConflictNothingPartial(d: Document)
    requires ResultsOf(d).conflicts == {} && !ResultsOf(d).partial
    ensures NothingPartial(d)
  {
    hide OfBlocks, OfBlock, OfRecords, RuntimesOf, PartialByMode, PrintsOf, AllCommits, AllRuns, TierPartial, BlockPartial;
    match d.runtimes {
      case None =>
        if !HasEvidence(d.top) { assert Tiers(d.top) == []; }
        assert !AnyTierPartial(Tiers(d.top)) || Tiers(d.top) == [];
      case Some(blocks) =>
        assert PartialTier !in BlockConflicts(blocks, d.top) && PartialBlocks !in BlockConflicts(blocks, d.top);
    }
  }

  // A document without conflicts carries one commit at most: every outcome that has
  // one, every block and the document agree on it.
  lemma NoConflictOneCommit(d: Document, x: string, y: string)
    requires ResultsOf(d).conflicts == {}
    requires x in AllCommits(ResultsOf(d)) && y in AllCommits(ResultsOf(d))
    requires d.runtimes.Some? || HasEvidence(d.top)
    ensures x == y
  {
    hide OfBlocks, OfBlock, OfRecords, RuntimesOf, PartialByMode, PrintsOf, BlockConflicts, AllRuns, BlockPartial, AnyFailing;
    var all := AllCommits(ResultsOf(d));
    assert |all| <= 1;
    if x != y {
      assert {x, y} <= all;
      SubsetIsNoLarger({x, y}, all);
    }
  }
}
