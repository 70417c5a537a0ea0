// The collecting code of scripts/_coverage_report_model.py: a mutable result set that
// block after block appends to, proved to end as CoverageResults describes.
module CoverageCollector {
  import opened Common
  import opened CoverageResults

  class ResultSet {
    var runId: Option<string>
    var commit: Option<string>
    var partial: bool
    var runtimes: map<string, Identity>
    var outcomes: seq<Outcome>
    var collectionFailed: bool
    var collections: set<Evidence>
    var blockRunIds: set<string>
    var blockCommits: set<string>
    var missingCommit: bool
    var conflicts: set<Conflict>
    var mergeConflict: bool

    constructor (top: Block)
      ensures Value() == StartOf(Document(top, None))
    {
      runId, commit, partial := top.runId, top.commit, BlockPartial(top);
      runtimes, outcomes := map[], [];
      collectionFailed, collections := top.collectionErrors, {};
      blockRunIds, blockCommits := {}, {};
      missingCommit, conflicts, mergeConflict := false, {}, false;
    }

    function Value(): Results
      reads this
    {
      Results(runId, commit, partial, runtimes, outcomes, collectionFailed, collections, blockRunIds, blockCommits,
              missingCommit, conflicts, mergeConflict)
    }

    method CollectCollections(raw: seq<RawCollection>, runtime: string)
      modifies this`collections, this`collectionFailed
      ensures collections == old(collections) + CollectedFrom(raw, runtime)
      ensures collectionFailed == (old(collectionFailed) || AnyFailing(raw))
    {
      for i := 0 to |raw|
        invariant collections == old(collections) + CollectedFrom(raw[..i], runtime)
        invariant collectionFailed == (old(collectionFailed) || AnyFailing(raw[..i]))
      {
        assert raw[..i + 1] == raw[..i] + [raw[i]];
        if raw[i].RawCollection? {
          collections := collections + {Evidence(runtime, raw[i].passing, raw[i].nodeids)};
          if !raw[i].passing {
            collectionFailed := true;
          }
        }
      }
      assert raw[..|raw|] == raw;
    }

    method CollectOutcomeRecords(rs: seq<RawRecord>, mode: string, inherited: Inherited, byRuntime: map<string, bool>)
      modifies this`outcomes
      ensures outcomes == old(outcomes) + OfRecords(rs, mode, inherited, byRuntime)
    {
      for i := 0 to |rs|
        invariant outcomes == old(outcomes) + OfRecords(rs[..i], mode, inherited, byRuntime)
      {
        assert rs[..i + 1][..i] == rs[..i];
        outcomes := outcomes + OfRecord(rs[i], mode, inherited, byRuntime);
      }
      assert rs[..|rs|] == rs;
    }

    method CollectTests(rs: seq<RawRecord>, mode: string, inherited: Inherited)
      modifies this`outcomes
      ensures outcomes == old(outcomes) + OfTests(rs, mode, inherited)
    {
      hide Normalise, TestStatus;
      for i := 0 to |rs|
        invariant outcomes == old(outcomes) + OfTests(rs[..i], mode, inherited)
      {
        assert rs[..i + 1][..i] == rs[..i];
        if Named(rs[i]) {
          outcomes := outcomes + [Normalise(rs[i], TestStatus(rs[i]), mode, inherited)];
        }
      }
      assert rs[..|rs|] == rs;
    }

    method CollectCases(rs: seq<RawRecord>, mode: string, inherited: Inherited)
      modifies this`outcomes
      ensures outcomes == old(outcomes) + OfCases(rs, mode, inherited)
    {
      hide Normalise, StatusFromGate;
      for i := 0 to |rs|
        invariant outcomes == old(outcomes) + OfCases(rs[..i], mode, inherited)
      {
        assert rs[..i + 1][..i] == rs[..i];
        if Named(rs[i]) {
          outcomes := outcomes + [Normalise(rs[i], StatusFromGate(rs[i].gateStatus), mode, inherited)];
        }
      }
      assert rs[..|rs|] == rs;
    }

    method CollectDetails(rs: seq<RawRecord>, mode: string, inherited: Inherited, seen: set<string>)
      modifies this`outcomes
      ensures outcomes == old(outcomes) + OfDetails(rs, mode, inherited, seen)
    {
      hide Normalise, DetailStatus, NormalizeNodeid;
      for i := 0 to |rs|
        invariant outcomes == old(outcomes) + OfDetails(rs[..i], mode, inherited, seen)
      {
        assert rs[..i + 1][..i] == rs[..i];
        if Named(rs[i]) && NormalizeNodeid(rs[i].nodeid.value) !in seen {
          outcomes := outcomes + [Normalise(rs[i], DetailStatus(rs[i].status), mode, inherited)];
        }
      }
      assert rs[..|rs|] == rs;
    }

    // The tiers of a block; node ids its rows report hide the failure details of the
    // same rows, in this tier and later ones.
    method CollectTiers(tiers: seq<RawTier>, mode: string, inherited: Inherited, reported: set<string>)
      modifies this`outcomes, this`conflicts
      ensures outcomes == old(outcomes) + OfTiers(tiers, mode, inherited, reported)
      ensures conflicts == old(conflicts) + If(AnyTierPartial(tiers), PartialTier)
    {
      hide OfCases, OfDetails, TierPartial, Ids;
      var seen := reported;
      for i := 0 to |tiers|
        invariant seen == SeenAfter(tiers[..i], reported)
        invariant outcomes == old(outcomes) + OfTiers(tiers[..i], mode, inherited, reported)
        invariant conflicts == old(conflicts) + If(AnyTierPartial(tiers[..i]), PartialTier)
      {
        assert tiers[..i + 1][..i] == tiers[..i];
        assert tiers[..i + 1] == tiers[..i] + [tiers[i]];
        NoTierPartialUnlessTier(tiers[i]);
        if tiers[i].RawTier? {
          seen := seen + Ids(tiers[i].cases);
          CollectTier(tiers[i], mode, inherited, seen);
        }
      }
      assert tiers[..|tiers|] == tiers;
    }

    method CollectTier(t: RawTier, mode: string, inherited: Inherited, seen: set<string>)
      requires t.RawTier?
      modifies this`outcomes, this`conflicts
      ensures outcomes == old(outcomes) + OfTier(t, mode, inherited, seen)
      ensures conflicts == old(conflicts) + If(TierPartial(t), PartialTier)
    {
      hide OfCases, OfDetails;
      var tierPartial := EnclosingPartial(t.partial, t.status);
      if tierPartial {
        conflicts := conflicts + {PartialTier};
      }
      var inside := inherited.(partial := inherited.partial || tierPartial);
      CollectCases(t.cases, mode, inside);
      CollectDetails(t.details, mode, inside, seen);
    }

    // Everything one block reports: its records, its tests, then its tiers.
    method CollectOutcomes(b: Block, mode: string, inherited: Inherited)
      modifies this`outcomes, this`conflicts
      ensures outcomes == old(outcomes) + OfBlock(b, mode, inherited)
      ensures conflicts == old(conflicts) + If(AnyTierPartial(Tiers(b)), PartialTier)
    {
      hide OfRecords, OfTests, OfTiers, SeenIds;
      var inside := inherited.(hashes := inherited.hashes + b.hashes);
      CollectOutcomeRecords(Records(b), mode, inside, map[]);
      CollectTests(Tests(b), mode, inside);
      CollectTiers(Tiers(b), mode, inside, SeenIds(b));
    }

    method FinalizeIdentity()
      modifies this`conflicts, this`missingCommit, this`mergeConflict
      ensures Value() == Finalised(old(Value()))
    {
      hide AllCommits, AllRuns;
      var commits, runs := AllCommits(Value()), AllRuns(Value());
      conflicts := conflicts + If(|commits| > 1, MixedCommits) + If(|runs| > 1, MixedRuns);
      missingCommit := outcomes != [] && commits == {};
      mergeConflict := conflicts != {};
    }

    // Document-level collections count for every runtime mode.
    method CollectForModes(raw: seq<RawCollection>, modes: set<string>)
      requires collections == {}
      modifies this`collections, this`collectionFailed
      ensures collections == CollectedForAll(raw, modes)
      ensures collectionFailed == (old(collectionFailed) || (modes != {} && AnyFailing(raw)))
    {
      var done: set<string> := {};
      assert CollectedForAll(raw, {}) == {};
      hide AnyFailing, CollectedForAll, CollectedFrom;
      while done != modes
        invariant done <= modes
        invariant collections == CollectedForAll(raw, done)
        invariant collectionFailed == (old(collectionFailed) || (done != {} && AnyFailing(raw)))
        decreases |modes - done|
      {
        var mode := PickMode(modes, done);
        CollectCollections(raw, mode);
        OneModeMore(raw, done, mode);
        done := done + {mode};
      }
    }

    // One block: its build identity, its collection evidence and its outcomes.
    method CollectBlock(b: Block, top: Block)
      modifies this`runtimes, this`collections, this`collectionFailed, this`outcomes, this`conflicts
      ensures runtimes == WithIdentity(old(runtimes), b)
      ensures collectionFailed == (old(collectionFailed) || b.collectionErrors || AnyFailing(b.collections))
      ensures collections == old(collections) + CollectedFrom(b.collections, ModeOf(b))
      ensures outcomes == old(outcomes) + OfBlock(b, ModeOf(b), InheritedBy(b, top))
      ensures conflicts == old(conflicts) + If(AnyTierPartial(Tiers(b)), PartialTier)
    {
      hide OfBlock, AnyTierPartial, AnyFailing;
      var mode := ModeOf(b);
      if b.identity.Some? {
        runtimes := runtimes[mode := b.identity.value];
      } else if mode !in runtimes {
        runtimes := runtimes[mode := BARE];
      }
      if b.collectionErrors {
        collectionFailed := true;
      }
      CollectCollections(b.collections, mode);
      CollectOutcomes(b, mode, InheritedBy(b, top));
    }

    method CollectBlocks(blocks: seq<Block>, top: Block)
      requires runtimes == map[] && outcomes == [] && conflicts == {}
      modifies this`runtimes, this`collections, this`collectionFailed, this`outcomes, this`conflicts
      ensures runtimes == RuntimesOf(blocks)
      ensures collectionFailed == (old(collectionFailed) || AnyBlockFailing(blocks))
      ensures collections == old(collections) + CollectedByBlocks(blocks)
      ensures outcomes == OfBlocks(blocks, top)
      ensures conflicts == If(AnyBlockTierPartial(blocks), PartialTier)
    {
      NoBlocks();
      hide OfBlock, CollectedByBlocks, AnyBlockFailing, AnyBlockTierPartial, WithIdentity;
      for i := 0 to |blocks|
        invariant runtimes == RuntimesOf(blocks[..i])
        invariant collectionFailed == (old(collectionFailed) || AnyBlockFailing(blocks[..i]))
        invariant collections == old(collections) + CollectedByBlocks(blocks[..i])
        invariant outcomes == OfBlocks(blocks[..i], top)
        invariant conflicts == If(AnyBlockTierPartial(blocks[..i]), PartialTier)
      {
        assert blocks[..i + 1][..i] == blocks[..i];
        BlocksGrow(blocks[..i], blocks[i]);
        assert blocks[..i + 1] == blocks[..i] + [blocks[i]];
        CollectBlock(blocks[i], top);
      }
      assert blocks[..|blocks|] == blocks;
    }
  }

  method PickMode(modes: set<string>, done: set<string>) returns (mode: string)
    requires done < modes
    ensures mode in modes && mode !in done && |modes - (done + {mode})| < |modes - done|
  {
    assert modes - done != {};
    mode :| mode in modes - done;
    assert modes - (done + {mode}) == (modes - done) - {mode};
  }

  lemma OneModeMore(raw: seq<RawCollection>, modes: set<string>, mode: string)
    ensures CollectedForAll(raw, modes + {mode}) == CollectedForAll(raw, modes) + CollectedFrom(raw, mode)
  {
  }

  lemma NoBlocks()
    ensures CollectedByBlocks([]) == {} && !AnyBlockFailing([]) && !AnyBlockTierPartial([])
  {
  }

  lemma BlocksGrow(blocks: seq<Block>, b: Block)
    ensures CollectedByBlocks(blocks + [b]) == CollectedByBlocks(blocks) + CollectedFrom(b.collections, ModeOf(b))
    ensures AnyBlockFailing(blocks + [b]) == (AnyBlockFailing(blocks) || b.collectionErrors || AnyFailing(b.collections))
    ensures AnyBlockTierPartial(blocks + [b]) == (AnyBlockTierPartial(blocks) || AnyTierPartial(Tiers(b)))
  {
    hide AnyTierPartial, AnyFailing, ModeOf;
    assert forall x :: x in blocks + [b] <==> x in blocks || x == b;
  }

  lemma NoTierPartialUnlessTier(t: RawTier)
    ensures TierPartial(t) ==> t.RawTier?
  {
  }

  // The run ids, commits, fingerprints and partial marks of a document's blocks.
  datatype BlockMarks = BlockMarks(
    runIds: set<string>, commits: set<string>, prints: map<string, set<Print>>, partialByMode: map<string, bool>,
    anyPartial: bool)

  ghost predicate MarksOf(m: BlockMarks, blocks: seq<Block>, top: Block) {
    && m.runIds == RunIds(blocks) && m.commits == Commits(blocks)
    && m.prints.Keys == Modes(blocks)
    && (forall mode :: mode in m.prints ==> m.prints[mode] == PrintsOf(blocks, mode))
    && m.partialByMode == PartialByMode(blocks, top)
    && m.anyPartial == AnyPartial(blocks, top)
  }

  lemma MarkGrows(m: BlockMarks, blocks: seq<Block>, b: Block, top: Block)
    requires MarksOf(m, blocks, top)
    ensures MarksOf(Marked(m, b, top), blocks + [b], top)
  {
    hide BlockPartial, ModeOf, Modes, PrintsOf, AnyPartial, RunIds, Commits;
    assert (blocks + [b])[..|blocks|] == blocks;
    SetsGrow(blocks, b, top);
    forall mode ensures PrintsOf(blocks + [b], mode) == PrintsOf(blocks, mode) + (if mode == ModeOf(b) then {PrintOf(b)} else {})
      && (mode !in Modes(blocks) ==> PrintsOf(blocks, mode) == {})
    {
      PrintsGrow(blocks, b, mode);
    }
  }

  lemma SetsGrow(blocks: seq<Block>, b: Block, top: Block)
    ensures RunIds(blocks + [b]) == RunIds(blocks) + Given(b.runId)
    ensures Commits(blocks + [b]) == Commits(blocks) + Given(b.commit)
    ensures Modes(blocks + [b]) == Modes(blocks) + {ModeOf(b)}
    ensures AnyPartial(blocks + [b], top) == (AnyPartial(blocks, top) || BlockPartial(b) || BlockPartial(top))
  {
    hide BlockPartial, ModeOf;
    assert forall x :: x in blocks + [b] <==> x in blocks || x == b;
  }

  lemma PrintsGrow(blocks: seq<Block>, b: Block, mode: string)
    ensures PrintsOf(blocks + [b], mode) == PrintsOf(blocks, mode) + if mode == ModeOf(b) then {PrintOf(b)} else {}
    ensures mode !in Modes(blocks) ==> PrintsOf(blocks, mode) == {}
  {
    hide ModeOf;
    assert forall x :: x in blocks + [b] <==> x in blocks || x == b;
  }

  function Marked(m: BlockMarks, b: Block, top: Block): BlockMarks {
    var mode, partial := ModeOf(b), BlockPartial(b) || BlockPartial(top);
    BlockMarks(
      m.runIds + Given(b.runId), m.commits + Given(b.commit),
      m.prints[mode := (if mode in m.prints then m.prints[mode] else {}) + {PrintOf(b)}],
      m.partialByMode[mode := PartialIn(m.partialByMode, mode) || partial],
      m.anyPartial || partial)
  }

  method MarkBlocks(blocks: seq<Block>, top: Block) returns (m: BlockMarks)
    ensures MarksOf(m, blocks, top)
  {
    hide Marked, BlockPartial;
    m := BlockMarks({}, {}, map[], map[], BlockPartial(top));
    for i := 0 to |blocks|
      invariant MarksOf(m, blocks[..i], top)
    {
      MarkGrows(m, blocks[..i], blocks[i], top);
      assert blocks[..i + 1] == blocks[..i] + [blocks[i]];
      m := Marked(m, blocks[i], top);
    }
    assert blocks[..|blocks|] == blocks;
  }

  // Modes whose blocks do not all carry one fingerprint.
  function Conflicting(m: BlockMarks): set<Conflict> {
    set mode | mode in m.prints && |m.prints[mode]| > 1 :: ConflictingBlocks(mode)
  }

  lemma ConflictingMeans(m: BlockMarks, blocks: seq<Block>, top: Block)
    requires MarksOf(m, blocks, top)
    ensures Conflicting(m) == MergedBuilds(blocks)
  {
    hide Modes, PrintsOf;
  }

  method ResultSetFromDocument(d: Document) returns (r: ResultSet)
    ensures fresh(r) && r.Value() == ResultsOf(d)
  {
    hide ResultsOfBlocks, ResultsOfTop, HasEvidence;
    r := new ResultSet(d.top);
    match d.runtimes {
      case Some(blocks) => FromBlocks(r, d, blocks);
      case None =>
        if HasEvidence(d.top) {
          FromTop(r, d);
        }
    }
  }

  method FromBlocks(r: ResultSet, d: Document, blocks: seq<Block>)
    requires r.Value() == StartOf(d)
    modifies r
    ensures r.Value() == ResultsOfBlocks(d, blocks)
  {
    hide Finalised, OfBlocks, OfRecords, RuntimesOf, BlockPartial, BlockConflicts, AnyFailing, DefaultMode,
      CollectedForAll, CollectedByBlocks, AnyBlockFailing, AnyBlockTierPartial, Modes, RunIds, Commits;
    r.CollectForModes(d.top.collections, Modes(blocks));
    r.CollectBlocks(blocks, d.top);
    var partialByMode := RecordBlockConflicts(r, d.top, blocks);
    r.CollectOutcomeRecords(Records(d.top), DefaultMode(blocks), TopInherited(d.top), partialByMode);
    r.FinalizeIdentity();
  }

  // The identities of all blocks, and what they say against merging them.
  method RecordBlockConflicts(r: ResultSet, top: Block, blocks: seq<Block>) returns (partialByMode: map<string, bool>)
    requires r.conflicts == If(AnyBlockTierPartial(blocks), PartialTier)
    modifies r`blockRunIds, r`blockCommits, r`conflicts
    ensures r.blockRunIds == RunIds(blocks) && r.blockCommits == Commits(blocks)
    ensures r.conflicts == BlockConflicts(blocks, top)
    ensures partialByMode == PartialByMode(blocks, top)
  {
    hide AnyBlockTierPartial, AnyPartial, Conflicting, MergedBuilds, Modes, PrintsOf, RunIds, Commits;
    var marks := MarkBlocks(blocks, top);
    ConflictingMeans(marks, blocks, top);
    r.blockRunIds, r.blockCommits := marks.runIds, marks.commits;
    r.conflicts := r.conflicts + If(marks.anyPartial, PartialBlocks) + Conflicting(marks);
    partialByMode := marks.partialByMode;
  }

  method FromTop(r: ResultSet, d: Document)
    requires r.Value() == StartOf(d)
    modifies r
    ensures r.Value() == ResultsOfTop(d)
  {
    hide Finalised, OfBlock, BlockPartial, AnyFailing, AnyTierPartial;
    r.runtimes := WithIdentity(r.runtimes, d.top);
    r.CollectCollections(d.top.collections, ModeOf(d.top));
    r.CollectOutcomes(d.top, ModeOf(d.top), TopInherited(d.top));
    assert [] + OfBlock(d.top, ModeOf(d.top), TopInherited(d.top)) == OfBlock(d.top, ModeOf(d.top), TopInherited(d.top));
    assert {} + CollectedFrom(d.top.collections, ModeOf(d.top)) == CollectedFrom(d.top.collections, ModeOf(d.top));
    assert {} + If(AnyTierPartial(Tiers(d.top)), PartialTier) == If(AnyTierPartial(Tiers(d.top)), PartialTier);
    r.FinalizeIdentity();
  }
}
