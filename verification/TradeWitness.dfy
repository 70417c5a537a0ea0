// Runs that reach the trade's verdict (scripts/_timed_trade_probe.py): which parties and
// configurations memory can hold, and a certified run for every one of them.
module TradeWitness {
  import opened Common
  import opened TradeRules
  import opened TradeProtocol
  import opened Interleaving
  import opened TradePair

  // ------------------------------------------------------------ memory

  ghost function SpeciesBytes(p: Party): (r: Bytes)
    requires PartyValid(p)
    ensures |r| == |p.species| && forall i :: 0 <= i < |r| ==> r[i] == p.species[i]
  {
    seq(|p.species|, i requires 0 <= i < |p.species| => p.species[i])
  }

  function Blank(size: nat): Bytes { seq(size, _ => 0) }

  // Memory that holds a given party.
  ghost function RamOf(p: Party): (ram: PartyRam)
    requires PartyValid(p)
    ensures ReadParty(ram) == Some(p)
  {
    var ram := RawParty(p.count, Padded(SpeciesBytes(p), 7, 0), Padded(p.records, 6, Blank(44)),
                        Padded(p.otNames, 6, Blank(11)), Padded(p.nicknames, 6, Blank(11)));
    assert ram.species[..p.count + 1] == p.species;
    ram
  }

  // The constructor can produce every qualified configuration, and only those.
  lemma ConstructedExactly(c: Config)
    ensures Qualified(c) <==> exists ram :: Construct(c.role, c.version, c.checkpoint, c.slot, ram) == Some(c)
  {
    if Qualified(c) {
      assert Construct(c.role, c.version, c.checkpoint, c.slot, RamOf(c.before)) == Some(c);
    }
    if ram :| Construct(c.role, c.version, c.checkpoint, c.slot, ram) == Some(c) {
      ConstructQualifies(c.role, c.version, c.checkpoint, c.slot, ram);
    }
  }

  ghost function MemoryWith(p: Party): (m: Memory)
    requires PartyValid(p)
    ensures ReadParty(m.party) == Some(p)
  {
    Memory(0, 0, 0, 0, 0, 0, 0, 0, 0, 0, 0, 0, 0, 0, 0, 0, 0, RamOf(p))
  }

  // ------------------------------------------------------- one trade cycle

  // The hooks of a trade that runs through, with the received party in memory.
  const CYCLE: seq<Hook> := [TradeConfirmed, AddEnemyMon, TryEvolving, SaveParty, TradeAgain]

  ghost function Cycle(who: Role, p: Party, n: nat): seq<Scheduled>
    requires PartyValid(p) && n <= |CYCLE|
  {
    if n == 0 then [] else Cycle(who, p, n - 1) + [Scheduled(who, Observed(CYCLE[n - 1], MemoryWith(p)))]
  }

  // The owner after so many hooks of its cycle.
  function Stage(p: Party, n: nat): Owner {
    if n == 0 then FRESH_OWNER
    else
      FRESH_OWNER.(
        flags := FRESH_OWNER.flags + (if n >= 3 then {CopyValidated} else {}) + (if n >= 5 then {CycleReturned} else {}),
        screen := Screen(Some(TradeRunning), None, 0, 0),
        ev := Evidence(n >= 2, if n >= 3 then Some(p) else None, n >= 4, if n >= 5 then Some(p) else None))
  }

  // The party after the exchange keeps the survivors, ends in the peer's member and
  // does not evolve, because no owner offers a member that would.
  lemma ExchangeIsGood(c: Config, d: Config)
    requires Qualified(c) && Qualified(d)
    ensures Expected(c.before, c.slot, d.before, d.slot).Some?
    ensures var p := Expected(c.before, c.slot, d.before, d.slot).value;
      && PartyValid(p) && SurvivorsKept(c.before, c.slot, p) && !TradeEvolves(p.species[|p.species| - 2])
      && LastEntryIs(p, d.before, d.slot)
  {
    ExpectedMembers(c.before, c.slot, d.before, d.slot);
  }

  // Each hook of the cycle takes the owner to its next stage.
  lemma StageFollows(c: Config, p: Party, m: Memory, n: nat)
    requires n < |CYCLE| && Qualified(c) && ReadParty(m.party) == Some(p)
    requires PartyValid(p) && SurvivorsKept(c.before, c.slot, p) && !TradeEvolves(p.species[|p.species| - 2])
    ensures Callback(c, Stage(p, n), CYCLE[n], m) == Stage(p, n + 1)
  {
    hide Qualified, PartyValid, SurvivorsKept, ReadParty, TradeEvolves;
  }

  // The later run differs from the earlier one in this owner's state alone.
  ghost predicate Differs(w: World, w': World, who: Role, o: Owner) {
    && OwnerOf(w', who) == o && OwnerOf(w', Other(who)) == OwnerOf(w, Other(who))
    && w'.listenLog == w.listenLog && w'.connectLog == w.connectLog
  }

  lemma NextDiffers(g: Session, schedule: seq<Scheduled>, who: Role, h: Hook, m: Memory)
    requires SessionQualified(g)
    ensures Differs(Run(g, schedule), Run(g, schedule + [Scheduled(who, Observed(h, m))]), who,
                    Callback(ConfigOf(g, who), OwnerOf(Run(g, schedule), who), h, m))
  {
    hide Callback, Qualified;
    var next := schedule + [Scheduled(who, Observed(h, m))];
    assert next[..|next| - 1] == schedule;
  }

  lemma {:induction false} CyclePlayed(g: Session, schedule: seq<Scheduled>, who: Role, p: Party, n: nat)
    requires SessionQualified(g) && PartyValid(p) && n <= |CYCLE|
    requires SurvivorsKept(ConfigOf(g, who).before, ConfigOf(g, who).slot, p) && !TradeEvolves(p.species[|p.species| - 2])
    requires OwnerOf(Run(g, schedule), who) == FRESH_OWNER
    ensures Differs(Run(g, schedule), Run(g, schedule + Cycle(who, p, n)), who, Stage(p, n))
  {
    hide Run, Callback, Qualified, PartyValid, SurvivorsKept, TradeEvolves, MemoryWith;
    if n == 0 {
      assert schedule + [] == schedule;
    } else {
      var before, m := schedule + Cycle(who, p, n - 1), MemoryWith(p);
      CyclePlayed(g, schedule, who, p, n - 1);
      NextDiffers(g, before, who, CYCLE[n - 1], m);
      assert schedule + Cycle(who, p, n) == before + [Scheduled(who, Observed(CYCLE[n - 1], m))];
      StageFollows(ConfigOf(g, who), p, m, n - 1);
    }
  }

  // Both owners play their cycle, with these parties received.
  lemma BothPlayed(g: Session, p: Party, q: Party) returns (schedule: seq<Scheduled>)
    requires SessionQualified(g) && PartyValid(p) && PartyValid(q)
    requires SurvivorsKept(g.listen.before, g.listen.slot, p) && !TradeEvolves(p.species[|p.species| - 2])
    requires SurvivorsKept(g.connect.before, g.connect.slot, q) && !TradeEvolves(q.species[|q.species| - 2])
    ensures Run(g, schedule) == World(Stage(p, 5), Stage(q, 5), [], [])
  {
    assert Run(g, []) == World(FRESH_OWNER, FRESH_OWNER, [], []);
    hide Run, Qualified, PartyValid, SurvivorsKept, Cycle, TradeEvolves, Stage;
    CyclePlayed(g, [], Listen, p, 5);
    var half := [] + Cycle(Listen, p, 5);
    CyclePlayed(g, half, Connect, q, 5);
    schedule := half + Cycle(Connect, q, 5);
  }

  // Whatever two qualified configurations start out, one clean cycle of hooks on each
  // side leads both drivers to the goal and is certified, although neither owner sent
  // an input or announced the party screen: the certificate rests on the parties.
  lemma CertifiedByPartiesAlone(g: Session) returns (schedule: seq<Scheduled>)
    requires SessionQualified(g)
    requires g.listen.role == Listen && g.connect.role == Connect
    requires g.listen.checkpoint == ExchangeGoal && g.connect.checkpoint == ExchangeGoal
    ensures var w := Run(g, schedule);
      && ObjectiveComplete(g.listen, w.listen) && ObjectiveComplete(g.connect, w.connect)
      && w.listenLog == [] && w.connectLog == [] && SelectMonReady !in w.listen.flags + w.connect.flags
      && Verdict([SnapshotOf(g.listen, w.listen), SnapshotOf(g.connect, w.connect)], ExchangeGoal).complete
  {
    var c, d := g.listen, g.connect;
    ExchangeIsGood(c, d);
    ExchangeIsGood(d, c);
    hide Run, Qualified, PartyValid, SurvivorsKept, Expected, LastEntryIs, TradeEvolves, Verdict;
    schedule := BothPlayed(g, Expected(c.before, c.slot, d.before, d.slot).value,
                           Expected(d.before, d.slot, c.before, c.slot).value);
    LivePairVerdict(g, schedule);
  }

  // A first side that received anything but the peer's member reaches its goal all
  // the same, and the pair is refused as a mismatch.
  lemma WrongMemberRefused(g: Session, p: Party) returns (schedule: seq<Scheduled>)
    requires SessionQualified(g)
    requires g.listen.role == Listen && g.connect.role == Connect
    requires g.listen.checkpoint == ExchangeGoal && g.connect.checkpoint == ExchangeGoal
    requires PartyValid(p) && SurvivorsKept(g.listen.before, g.listen.slot, p)
    requires !TradeEvolves(p.species[|p.species| - 2]) && !LastEntryIs(p, g.connect.before, g.connect.slot)
    ensures var w := Run(g, schedule);
      && ObjectiveComplete(g.listen, w.listen) && ObjectiveComplete(g.connect, w.connect)
      && Verdict([SnapshotOf(g.listen, w.listen), SnapshotOf(g.connect, w.connect)], ExchangeGoal).status == Mismatch
  {
    var c, d := g.listen, g.connect;
    ExchangeIsGood(d, c);
    hide Run, Qualified, PartyValid, SurvivorsKept, Expected, LastEntryIs, TradeEvolves, Verdict;
    schedule := BothPlayed(g, p, Expected(d.before, d.slot, c.before, c.slot).value);
    LivePairVerdict(g, schedule);
  }
}
