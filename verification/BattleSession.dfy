// A whole battle session in the drivers' own form: two owner objects over one shared
// board, their callbacks in any order, and the parent that reads both snapshots. What
// the objects hold is the run of BattlePair (scripts/_timed_battle_probe.py).
module BattleSession {
  import opened Common
  import opened BattleRules
  import opened BattleProtocol
  import opened Interleaving
  import opened ReadinessBoard
  import opened BattleDriver
  import opened BattlePair

  // Two owners, each writing its own half of one board and reading the other's.
  ghost predicate Joined(a: BattleOwnerDriver, b: BattleOwnerDriver)
    reads a`flags, b`flags, a.peer.raw, b.peer.raw
  {
    && a != b && a.Valid() && b.Valid()
    && a.peer.raw == b.peer.raw && a.peer.index != b.peer.index
  }

  // What one owner reads of its peer is what the peer has raised.
  lemma EachSeesTheOther(a: BattleOwnerDriver, b: BattleOwnerDriver)
    requires Joined(a, b)
    ensures a.PeerFlags() == b.flags && b.PeerFlags() == a.flags
  {
    hide Qualified;
    forall p: Phase ensures a.peer.PeerUp(PhaseIndex(p)) == b.peer.OwnUp(PhaseIndex(p)) {}
    forall p: Phase ensures b.peer.PeerUp(PhaseIndex(p)) == a.peer.OwnUp(PhaseIndex(p)) {}
  }

  // An owner that still reads its peer's flags has left the peer's half alone.
  lemma StillJoined(a: BattleOwnerDriver, b: BattleOwnerDriver)
    requires a != b && a.Valid() && b.peer.Valid() && b.peer.phases == PHASES && Qualified(b.config)
    requires a.peer.raw == b.peer.raw && a.peer.index != b.peer.index
    requires a.PeerFlags() == b.flags
    ensures Joined(a, b)
  {
    hide Qualified;
    forall p: Phase ensures p in b.flags <==> b.peer.OwnUp(PhaseIndex(p)) {
      assert p in a.PeerFlags() <==> b.peer.OwnUp(PhaseIndex(p));
    }
  }

  // One callback of one owner.
  method Handle(d: BattleOwnerDriver, e: Event) returns (press: Option<Press>)
    requires d.Valid()
    modifies d, d.peer.raw
    ensures d.Valid() && d.PeerFlags() == old(d.PeerFlags())
    ensures d.State() == Step(d.config, old(d.State()), e, old(d.PeerFlags()))
    ensures press == Pressed(d.config, old(d.State()), e, old(d.PeerFlags()))
  {
    hide Observe, EnterScreen, Decide, BattleProtocol.AfterStep, Qualified;
    press := None;
    match e {
      case Observed(h, m) => d.Callback(h, m);
      case Deciding(frame, m) => press := d.BeforeStep(frame, m);
      case Ticked(m) => d.AfterStep(m);
      case Closing(cleanupFails) => d.Close(cleanupFails);
    }
  }

  // One callback of the owner `a`, its peer `b` looking on.
  method HandleOne(a: BattleOwnerDriver, b: BattleOwnerDriver, e: Event) returns (press: Option<Press>)
    requires Joined(a, b)
    modifies a, a.peer.raw
    ensures Joined(a, b) && b.State() == old(b.State())
    ensures a.State() == Step(a.config, old(a.State()), e, old(b.flags))
    ensures press == Pressed(a.config, old(a.State()), e, old(b.flags))
  {
    EachSeesTheOther(a, b);
    JoinedParts(a, b);
    press := Handle(a, e);
    StillJoined(a, b);
  }

  lemma JoinedParts(a: BattleOwnerDriver, b: BattleOwnerDriver)
    requires Joined(a, b)
    ensures a != b && a.Valid() && b.Valid() && a.peer.raw == b.peer.raw && Joined(b, a)
  {
  }

  // The two objects hold what the run says.
  ghost predicate Follows(g: Session, l: BattleOwnerDriver, k: BattleOwnerDriver, w: World)
    reads l, k
  {
    l.config == g.listen && k.config == g.connect && l.State() == w.listen && k.State() == w.connect
  }

  // Any schedule of callbacks, whatever memory they read, leaves two fresh owners and
  // the inputs they suggested as the run of the two transition systems.
  method Perform(g: Session, l: BattleOwnerDriver, k: BattleOwnerDriver, schedule: seq<Scheduled>)
    returns (listenLog: seq<Press>, connectLog: seq<Press>)
    requires Joined(l, k) && Follows(g, l, k, World(FRESH_OWNER, FRESH_OWNER, [], []))
    modifies l, k, l.peer.raw
    ensures Joined(l, k) && Follows(g, l, k, Run(g, schedule))
    ensures listenLog == Run(g, schedule).listenLog && connectLog == Run(g, schedule).connectLog
  {
    hide Step, Pressed, Joined;
    listenLog, connectLog := [], [];
    for i := 0 to |schedule|
      invariant Joined(l, k) && Follows(g, l, k, Run(g, schedule[..i]))
      invariant listenLog == Run(g, schedule[..i]).listenLog && connectLog == Run(g, schedule[..i]).connectLog
    {
      assert schedule[..i + 1][..i] == schedule[..i];
      JoinedParts(l, k);
      if schedule[i].who == Listen {
        var press := HandleOne(l, k, schedule[i].event);
        listenLog := Extend(listenLog, press);
      } else {
        var press := HandleOne(k, l, schedule[i].event);
        connectLog := Extend(connectLog, press);
        JoinedParts(k, l);
      }
    }
    assert schedule[..|schedule|] == schedule;
  }

  // The report an owner hands to its parent.
  method TakeSnapshot(d: BattleOwnerDriver) returns (o: Snapshot)
    ensures o == SnapshotOf(d.config, d.State())
  {
    var c := d.config;
    var done := d.error.None? && if c.checkpoint == SettledTurnGoal then d.turn.Some? else d.room.Some?;
    o := Snapshot(1, c.role, c.version, if c.wanted.Some? then Some(c.wanted.value as int) else None, c.chosen, c.checkpoint,
                  d.flags, done, done, false, true, c.before, d.baseline, d.turn, d.room, d.error);
  }

  // The peer's half of an empty board stays empty while the first owner sits down.
  lemma StillEmpty(a: BattleOwnerDriver, board: PeerReadiness)
    requires a.peer.Valid() && a.peer.phases == PHASES && a.PeerFlags() == {}
    requires board.Valid() && board.phases == PHASES && board.raw == a.peer.raw && board.index != a.peer.index
    ensures forall p: Phase :: !board.OwnUp(PhaseIndex(p))
  {
    forall p: Phase ensures !board.OwnUp(PhaseIndex(p)) { assert p !in a.PeerFlags(); }
  }

  // The second owner takes the empty half of the board.
  method SeatPeer(l: BattleOwnerDriver, config: Config, board: PeerReadiness) returns (k: BattleOwnerDriver)
    requires Qualified(config) && l.Valid() && l.PeerFlags() == {}
    requires board.Valid() && board.phases == PHASES && board.raw == l.peer.raw && board.index != l.peer.index
    modifies l.peer.raw
    ensures fresh(k) && Joined(l, k) && k.config == config && k.State() == FRESH_OWNER
  {
    hide Qualified;
    StillEmpty(l, board);
    forall p: Phase ensures board.PeerUp(PhaseIndex(p)) == l.peer.OwnUp(PhaseIndex(p)) {}
    ghost var raised := set p: Phase | board.PeerUp(PhaseIndex(p));
    assert raised == l.flags;
    k := new BattleOwnerDriver(config, board);
    StillJoined(k, l);
  }

  // Two owners at one empty board.
  method Seat(g: Session) returns (l: BattleOwnerDriver, k: BattleOwnerDriver)
    requires Qualified(g.listen) && Qualified(g.connect)
    ensures fresh(l) && fresh(k) && fresh(l.peer.raw)
    ensures Joined(l, k) && Follows(g, l, k, World(FRESH_OWNER, FRESH_OWNER, [], []))
  {
    hide Qualified, Joined;
    var raw := new Byte[2 * PHASES](_ => 0);
    var mine := new PeerReadiness(raw, 0, PHASES);
    var yours := new PeerReadiness(raw, 1, PHASES);
    l := new BattleOwnerDriver(g.listen, mine);
    assert l.PeerFlags() == {};
    k := SeatPeer(l, g.connect, yours);
  }

  // A session from its empty board to the parent's verdict.
  method PlaySession(g: Session, schedule: seq<Scheduled>, cp: Checkpoint) returns (status: Status)
    requires Qualified(g.listen) && Qualified(g.connect)
    ensures var w := Run(g, schedule);
      status == Verdict([SnapshotOf(g.listen, w.listen), SnapshotOf(g.connect, w.connect)], cp)
  {
    hide Run, Verdict, SnapshotOf, Qualified, Joined;
    var l, k := Seat(g);
    var _, _ := Perform(g, l, k, schedule);
    var o := TakeSnapshot(l);
    var p := TakeSnapshot(k);
    status := AdjudicatePair([o, p], cp);
  }
}
