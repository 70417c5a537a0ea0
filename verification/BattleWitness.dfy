// What two accepted configurations can and cannot bring about: the four facts the parent
// asks for beyond the owners' goals are independent of those goals and of each other,
// and which pairs can be certified at all (scripts/_timed_battle_probe.py).
module BattleWitness {
  import opened Common
  import opened BattleRules
  import opened BattleProtocol
  import opened Interleaving
  import opened BattleInvariants
  import opened BattlePair
  import opened BattleScript

  // The owner's goal does not ask for what its party cannot do.
  ghost predicate CanReturn(c: Config) { c.checkpoint == RoomReturnGoal ==> Healable(c.before) }

  // All four facts, as far as the checkpoint asks for them.
  predicate Whole(plan: Plan, cp: Checkpoint) {
    plan.menu && plan.room && plan.timely && (cp == RoomReturnGoal ==> plan.tidy)
  }

  // ------------------------------------------------------------- one run for every plan

  // One owner plays its events; the other one stays as it is.
  lemma Turns(g: Session, schedule: seq<Scheduled>, who: Role, events: seq<Event>) returns (more: seq<Scheduled>)
    ensures var w, w' := Run(g, schedule), Run(g, more);
      && OwnerOf(w', Other(who)) == OwnerOf(w, Other(who))
      && OwnerOf(w', who) == Play(ConfigOf(g, who), OwnerOf(w, who), events, OwnerOf(w, Other(who)).flags)
  {
    PlayedRun(g, schedule, who, events);
    more := schedule + By(who, events);
  }

  lemma Fresh(g: Session, who: Role)
    ensures OwnerOf(Run(g, []), who) == FRESH_OWNER
  {
  }

  // An owner at its move menu, ready for the exchange as planned.
  ghost predicate Waits(plan: Plan, c: Config, e: Config, s: Owner, k: Mark)
    requires Built(c) && Built(e)
  {
    Stage(s, k) && Ready(plan, c, e, k) && OnMoves(s)
  }

  lemma MakeWait(plan: Plan, c: Config, e: Config, s: Owner, k: Mark)
    requires Built(c) && Built(e) && Stage(s, k) && Ready(plan, c, e, k) && OnMoves(s)
    ensures Waits(plan, c, e, s, k)
  {
    hide Built, Stage, Ready, OnMoves;
  }

  lemma WaitFacts(plan: Plan, c: Config, e: Config, s: Owner, k: Mark)
    requires Built(c) && Built(e) && Waits(plan, c, e, s, k)
    ensures Stage(s, k) && Ready(plan, c, e, k) && OnMoves(s) && s.flags == k.flags
    ensures PartyQualified in s.flags && BeforeTurn(k) && k.next <= 60
  {
  }

  // From the start to the move menu, whatever the peer has published.
  lemma ApproachesFor(g: Session, schedule: seq<Scheduled>, who: Role, e: Config, plan: Plan)
    returns (more: seq<Scheduled>, k: Mark)
    requires Built(ConfigOf(g, who)) && Built(e) && OwnerOf(Run(g, schedule), who) == FRESH_OWNER
    requires PartyQualified in OwnerOf(Run(g, schedule), Other(who)).flags
    ensures var w, w' := Run(g, schedule), Run(g, more);
      && Waits(plan, ConfigOf(g, who), e, OwnerOf(w', who), k) && MoveReady !in OwnerOf(w', who).flags
      && Ready(plan, ConfigOf(g, who), e, k.(flags := k.flags + {MoveReady}))
      && OwnerOf(w', Other(who)) == OwnerOf(w, Other(who))
  {
    var c, peer := ConfigOf(g, who), OwnerOf(Run(g, schedule), Other(who)).flags;
    hide *;
    var events := Approaches(plan, c, e, peer);
    ApproachReady(plan, c, e, peer);
    k := AtMoves(Opened(plan, c, e, peer));
    var s := Play(c, FRESH_OWNER, events, peer);
    MakeWait(plan, c, e, s, k);
    WaitFacts(plan, c, e, s, k);
    more := Turns(g, schedule, who, events);
  }

  lemma AnnouncesFor(g: Session, schedule: seq<Scheduled>, who: Role, e: Config, plan: Plan, k: Mark)
    returns (more: seq<Scheduled>)
    requires Built(ConfigOf(g, who)) && Built(e) && Waits(plan, ConfigOf(g, who), e, OwnerOf(Run(g, schedule), who), k)
    requires Ready(plan, ConfigOf(g, who), e, k.(flags := k.flags + {MoveReady}))
    requires var peer := OwnerOf(Run(g, schedule), Other(who)).flags; PartyQualified in peer && MoveReady !in peer
    ensures var w, w' := Run(g, schedule), Run(g, more); var k1 := k.(flags := k.flags + {MoveReady});
      && Waits(plan, ConfigOf(g, who), e, OwnerOf(w', who), k1) && MoveReady in OwnerOf(w', who).flags
      && OwnerOf(w', Other(who)) == OwnerOf(w, Other(who))
  {
    var c, s, peer := ConfigOf(g, who), OwnerOf(Run(g, schedule), who), OwnerOf(Run(g, schedule), Other(who)).flags;
    var e' := Deciding(60, MoveMemory(c, e));
    var k1 := k.(flags := k.flags + {MoveReady});
    assert MoveReady in k1.flags;
    hide *;
    WaitFacts(plan, c, e, s, k);
    AnnouncesMove(c, e, peer, s, k);
    PlaySingle(c, s, e', peer);
    var t := Step(c, s, e', peer);
    MakeWait(plan, c, e, t, k1);
    WaitFacts(plan, c, e, t, k1);
    more := Turns(g, schedule, who, [e']);
  }

  // Both owners stand at their move menus; the listener has announced its move.
  lemma BothReady(g: Session, ec: Config, ed: Config, lp: Plan, kp: Plan)
    returns (schedule: seq<Scheduled>, lk: Mark, kk: Mark)
    requires Built(g.listen) && Built(g.connect) && Built(ec) && Built(ed)
    ensures var w := Run(g, schedule);
      && Waits(lp, g.listen, ec, OwnerOf(w, Listen), lk) && Waits(kp, g.connect, ed, OwnerOf(w, Connect), kk)
      && MoveReady in OwnerOf(w, Listen).flags
  {
    assert ConfigOf(g, Listen) == g.listen && ConfigOf(g, Connect) == g.connect;
    assert Other(Listen) == Connect && Other(Connect) == Listen && PartyQualified in FRESH_OWNER.flags;
    hide *;
    Fresh(g, Listen);
    Fresh(g, Connect);
    schedule, lk := ApproachesFor(g, [], Listen, ec, lp);
    WaitFacts(lp, g.listen, ec, OwnerOf(Run(g, schedule), Listen), lk);
    schedule, kk := ApproachesFor(g, schedule, Connect, ed, kp);
    WaitFacts(kp, g.connect, ed, OwnerOf(Run(g, schedule), Connect), kk);
    schedule := AnnouncesFor(g, schedule, Listen, ec, lp, lk);
    lk := lk.(flags := lk.flags + {MoveReady});
  }

  // An owner waiting at its move menu settles its turn while its peer looks on.
  lemma SettlesFor(g: Session, schedule: seq<Scheduled>, who: Role, e: Config, plan: Plan, k: Mark)
    returns (more: seq<Scheduled>)
    requires Built(ConfigOf(g, who)) && Built(e) && Knows(ConfigOf(g, who), e)
    requires Waits(plan, ConfigOf(g, who), e, OwnerOf(Run(g, schedule), who), k)
    requires var peer := OwnerOf(Run(g, schedule), Other(who)).flags; PartyQualified in peer && MoveReady in peer
    ensures var w, w' := Run(g, schedule), Run(g, more);
      && Stage(OwnerOf(w', who), TurnMark(plan, ConfigOf(g, who), e, k)) && Ready(plan, ConfigOf(g, who), e, k)
      && OwnerOf(w', Other(who)) == OwnerOf(w, Other(who))
  {
    hide *;
    var w := Run(g, schedule);
    WaitFacts(plan, ConfigOf(g, who), e, OwnerOf(w, who), k);
    var events := Settles(plan, ConfigOf(g, who), e, OwnerOf(w, who), OwnerOf(w, Other(who)).flags, k);
    more := Turns(g, schedule, who, events);
  }

  // A settled owner goes on to its own goal.
  lemma GoesHome(g: Session, schedule: seq<Scheduled>, who: Role, e: Config, plan: Plan, k: Mark)
    returns (more: seq<Scheduled>)
    requires Built(ConfigOf(g, who)) && Built(e) && CanReturn(ConfigOf(g, who)) && Ready(plan, ConfigOf(g, who), e, k)
    requires Stage(OwnerOf(Run(g, schedule), who), TurnMark(plan, ConfigOf(g, who), e, k))
    requires var peer := OwnerOf(Run(g, schedule), Other(who)).flags; PartyQualified in peer && SettledTurn in peer
    ensures var w, w' := Run(g, schedule), Run(g, more); var s := OwnerOf(w', who);
      && Faces(ConfigOf(g, who), e, s) && FactsAre(ConfigOf(g, who), s, plan)
      && PartyQualified in s.flags && SettledTurn in s.flags
      && OwnerOf(w', Other(who)) == OwnerOf(w, Other(who))
  {
    var c := ConfigOf(g, who);
    assert c.checkpoint == RoomReturnGoal ==> Healable(c.before);
    hide *;
    var w := Run(g, schedule);
    SettledFacts(plan, c, e, OwnerOf(w, who), k);
    if c.checkpoint == SettledTurnGoal {
      more := schedule;
    } else {
      var events := ReturnsHome(plan, c, e, OwnerOf(w, who), OwnerOf(w, Other(who)).flags, TurnMark(plan, c, e, k));
      HomeFacts(plan, c, e, Play(c, OwnerOf(w, who), events, OwnerOf(w, Other(who)).flags), k);
      more := Turns(g, schedule, who, events);
    }
  }

  // For any two accepted configurations, any opponents they are shown and any plans,
  // some interleaving leads both owners to their goals with the planned facts.
  lemma PlannedRun(g: Session, ec: Config, ed: Config, lp: Plan, kp: Plan) returns (schedule: seq<Scheduled>)
    requires Built(g.listen) && Built(g.connect) && Built(ec) && Built(ed)
    requires Knows(g.listen, ec) && Knows(g.connect, ed) && CanReturn(g.listen) && CanReturn(g.connect)
    ensures var w := Run(g, schedule);
      && FactsAre(g.listen, w.listen, lp) && FactsAre(g.connect, w.connect, kp)
      && Faces(g.listen, ec, w.listen) && Faces(g.connect, ed, w.connect)
  {
    var c, d := g.listen, g.connect;
    assert ConfigOf(g, Listen) == c && ConfigOf(g, Connect) == d && Other(Listen) == Connect && Other(Connect) == Listen;
    hide *;
    var lk, kk;
    schedule, lk, kk := BothReady(g, ec, ed, lp, kp);
    WaitFacts(lp, c, ec, OwnerOf(Run(g, schedule), Listen), lk);
    schedule := SettlesFor(g, schedule, Connect, ed, kp, kk);
    SettledFacts(kp, d, ed, OwnerOf(Run(g, schedule), Connect), kk);
    schedule := SettlesFor(g, schedule, Listen, ec, lp, lk);
    SettledFacts(lp, c, ec, OwnerOf(Run(g, schedule), Listen), lk);
    schedule := GoesHome(g, schedule, Listen, ec, lp, lk);
    schedule := GoesHome(g, schedule, Connect, ed, kp, kk);
    BothOwners(Run(g, schedule));
  }

  lemma BothOwners(w: World)
    ensures OwnerOf(w, Listen) == w.listen && OwnerOf(w, Connect) == w.connect
  {
  }

  // ------------------------------------------------------------- four independent facts

  lemma WholeIsOrdered(c: Config, s: Owner, plan: Plan)
    requires FactsAre(c, s, plan)
    ensures ObjectiveComplete(c, s) && s.ev.baseline.Some? && s.ev.turn.Some?
    ensures c.checkpoint == RoomReturnGoal ==> s.ev.room.Some?
    ensures OrderedEvidence(c, s) <==> Whole(plan, c.checkpoint)
  {
  }

  lemma BuiltKnowsItself(c: Config)
    requires Built(c)
    ensures Knows(c, c) && Qualified(c)
  {
    hide ExchangedEffect, Qualified, PartyShape;
  }

  // Whatever two configurations the constructor accepts, at whatever checkpoint their
  // parties can reach, the owners' goals leave all four facts open: for every choice of
  // facts on either side some interleaving reaches both goals with exactly those, and
  // the parent's checks of each snapshot alone pass exactly when all of them hold.
  lemma FactsAreIndependent(g: Session, lp: Plan, kp: Plan) returns (schedule: seq<Scheduled>)
    requires Built(g.listen) && Built(g.connect) && CanReturn(g.listen) && CanReturn(g.connect)
    ensures var w := Run(g, schedule);
      && FactsAre(g.listen, w.listen, lp) && FactsAre(g.connect, w.connect, kp)
      && (LocalAccepted(SnapshotOf(g.listen, w.listen), g.listen.checkpoint) <==> Whole(lp, g.listen.checkpoint))
      && (LocalAccepted(SnapshotOf(g.connect, w.connect), g.connect.checkpoint) <==> Whole(kp, g.connect.checkpoint))
  {
    hide *;
    BuiltKnowsItself(g.listen);
    BuiltKnowsItself(g.connect);
    schedule := PlannedRun(g, g.listen, g.connect, lp, kp);
    BothOwners(Run(g, schedule));
    BothConfigs(g);
    AcceptedAsPlanned(g, schedule, Listen, lp);
    AcceptedAsPlanned(g, schedule, Connect, kp);
  }

  lemma BothConfigs(g: Session)
    ensures ConfigOf(g, Listen) == g.listen && ConfigOf(g, Connect) == g.connect
  {
  }

  lemma AcceptedAsPlanned(g: Session, schedule: seq<Scheduled>, who: Role, plan: Plan)
    requires Qualified(ConfigOf(g, who)) && FactsAre(ConfigOf(g, who), OwnerOf(Run(g, schedule), who), plan)
    ensures var c := ConfigOf(g, who);
      LocalAccepted(SnapshotOf(c, OwnerOf(Run(g, schedule), who)), c.checkpoint) <==> Whole(plan, c.checkpoint)
  {
    RunSound(g, schedule);
    hide Run, Qualified, FactsAre, OwnerSound, InputsSound, Rendezvous, LocalAccepted, OrderedEvidence, Whole, ObjectiveComplete;
    var w := Run(g, schedule);
    WholeIsOrdered(ConfigOf(g, who), OwnerOf(w, who), plan);
    FrozenTurnReaccepted(ConfigOf(g, who), OwnerOf(w, who), OwnerOf(w, Other(who)).flags);
  }

  // The turns of two owners that face each other mirror each other.
  lemma FacingMirrors(c: Config, d: Config, s: Owner, t: Owner)
    requires Built(c) && Built(d) && Faces(c, d, s) && Faces(d, c, t)
    ensures Mirrored(SnapshotOf(c, s), SnapshotOf(d, t))
  {
    BuiltLead(c);
    BuiltLead(d);
    hide Built, Lead, Spent, CatalogEffect, ObjectiveComplete;
  }

  // When the ROMs agree on the two chosen moves, every plan is played by two owners that
  // face each other, and the parent certifies the pair exactly when both plans are whole.
  lemma PlannedPairVerdict(g: Session, lp: Plan, kp: Plan) returns (schedule: seq<Scheduled>)
    requires Built(g.listen) && Built(g.connect) && CanReturn(g.listen) && CanReturn(g.connect)
    requires Knows(g.listen, g.connect) && Knows(g.connect, g.listen)
    requires g.listen.role == Listen && g.connect.role == Connect && g.listen.checkpoint == g.connect.checkpoint
    ensures var w := Run(g, schedule);
      && FactsAre(g.listen, w.listen, lp) && FactsAre(g.connect, w.connect, kp)
      && (CertifiedBy(g, schedule) <==> Whole(lp, g.listen.checkpoint) && Whole(kp, g.listen.checkpoint))
  {
    hide *;
    BuiltKnowsItself(g.listen);
    BuiltKnowsItself(g.connect);
    schedule := PlannedRun(g, g.connect, g.listen, lp, kp);
    var w := Run(g, schedule);
    WholeIsOrdered(g.listen, w.listen, lp);
    WholeIsOrdered(g.connect, w.connect, kp);
    LivePairVerdict(g, schedule);
    FacingMirrors(g.listen, g.connect, w.listen, w.connect);
    CertificateOf(g, schedule);
  }

  // The parent certifies the pair of snapshots at the end of a run.
  ghost predicate CertifiedBy(g: Session, schedule: seq<Scheduled>) {
    var w := Run(g, schedule);
    Verdict([SnapshotOf(g.listen, w.listen), SnapshotOf(g.connect, w.connect)], g.listen.checkpoint) == Complete
  }

  lemma CertificateOf(g: Session, schedule: seq<Scheduled>)
    ensures var w := Run(g, schedule);
      var owners := [SnapshotOf(g.listen, w.listen), SnapshotOf(g.connect, w.connect)];
      && (CertifiedBy(g, schedule) <==> Verdict(owners, g.listen.checkpoint) == Complete)
      && owners[0] == SnapshotOf(g.listen, w.listen) && owners[1] == SnapshotOf(g.connect, w.connect)
  {
  }

  // ------------------------------------------------------------- what can be certified

  // The recorded effect of the enemy's move was read from the own ROM, and the turn
  // repeats the exchange.
  ghost predicate EffectRead(c: Config, ev: Evidence) {
    && (ev.exchange.Some? && ev.exchange.value.enemyEffect != -1 ==>
          var read := ExchangedEffect(c.rom, ev.exchange.value.enemyMove);
          read.Effect? && read.value as int == ev.exchange.value.enemyEffect)
    && (ev.turn.Some? ==>
          && ev.exchange.Some? && ev.turn.value.enemyMove == ev.exchange.value.enemyMove
          && ev.turn.value.enemyEffect == ev.exchange.value.enemyEffect)
  }

  lemma ObserveReads(c: Config, ev: Evidence, seqNo: int, h: Hook, m: Memory, flags: set<Phase>, sent: set<Once>)
    requires EffectRead(c, ev)
    ensures EffectRead(c, Observe(c, ev, seqNo, h, m, flags, sent).ev)
  {
    hide ExchangedEffect, LocalTurnValid, BaselineValid;
  }

  lemma StepReads(c: Config, s: Owner, e: Event, peer: set<Phase>)
    requires EffectRead(c, s.ev)
    ensures EffectRead(c, Step(c, s, e, peer).ev)
  {
    hide ExchangedEffect, Observe, EnterScreen, ReadParty, HealedValid, PartyShape, Decide;
    if e.Observed? {
      ObserveReads(c, s.ev, s.sequence + 1, e.hook, e.memory, s.flags, s.inputs.sent);
    }
  }

  lemma {:induction false} RunReads(g: Session, schedule: seq<Scheduled>, who: Role)
    ensures EffectRead(ConfigOf(g, who), OwnerOf(Run(g, schedule), who).ev)
    decreases |schedule|
  {
    hide Step, Pressed, ExchangedEffect;
    if schedule != [] {
      var init, last := schedule[..|schedule| - 1], schedule[|schedule| - 1];
      RunReads(g, init, who);
      RunReads(g, init, last.who);
      StepReads(ConfigOf(g, last.who), OwnerOf(Run(g, init), last.who), last.event, OwnerOf(Run(g, init), Other(last.who)).flags);
    }
  }

  // Room evidence shows a healed party, so no member's maximum was zero.
  lemma HealedWasHealable(before: Party, healed: Party)
    requires PartyShape(before) && HealedValid(before, healed)
    ensures Healable(before)
  {
    forall i | 0 <= i < before.count ensures BigEndian(before.records[i][34], before.records[i][35]) != 0 {
      var was, now := before.records[i], healed.records[i];
      assert RecordMatches(was, before.species[i]) && RecordHealed(was, now);
      assert now[1] == now[1..3][0] == now[34..36][0] == now[34] && now[2] == now[1..3][1] == now[34..36][1] == now[35];
    }
  }

  // Both goals can be reached exactly when every party that has to come back healed
  // can be healed.
  lemma GoalsReachableExactly(g: Session)
    requires Built(g.listen) && Built(g.connect)
    ensures (exists schedule :: BothAtGoal(g, Run(g, schedule))) <==> CanReturn(g.listen) && CanReturn(g.connect)
  {
    hide *;
    if CanReturn(g.listen) && CanReturn(g.connect) {
      var plan := Plan(true, true, true, true);
      var schedule := FactsAreIndependent(g, plan, plan);
      FactsAtGoal(g, Run(g, schedule), plan);
    }
    forall schedule | BothAtGoal(g, Run(g, schedule)) ensures CanReturn(g.listen) && CanReturn(g.connect) {
      BothConfigs(g);
      BothOwners(Run(g, schedule));
      BothParts(g, Run(g, schedule));
      GoalNeedsReturn(g, schedule, Listen);
      GoalNeedsReturn(g, schedule, Connect);
    }
  }

  ghost predicate BothAtGoal(g: Session, w: World) {
    ObjectiveComplete(g.listen, w.listen) && ObjectiveComplete(g.connect, w.connect)
  }

  lemma BothParts(g: Session, w: World)
    ensures BothAtGoal(g, w) <==> ObjectiveComplete(g.listen, w.listen) && ObjectiveComplete(g.connect, w.connect)
  {
  }

  lemma FactsAtGoal(g: Session, w: World, plan: Plan)
    requires FactsAre(g.listen, w.listen, plan) && FactsAre(g.connect, w.connect, plan)
    ensures BothAtGoal(g, w)
  {
  }

  lemma GoalNeedsReturn(g: Session, schedule: seq<Scheduled>, who: Role)
    requires ObjectiveComplete(ConfigOf(g, who), OwnerOf(Run(g, schedule), who))
    ensures CanReturn(ConfigOf(g, who))
  {
    RunSound(g, schedule);
    hide Run, InputsSound, Rendezvous, HealedValid, PartyShape, Healable, LocalTurnValid, BaselineValid;
    var c, s := ConfigOf(g, who), OwnerOf(Run(g, schedule), who);
    if c.checkpoint == RoomReturnGoal { HealedWasHealable(c.before, s.ev.room.value.healed); }
  }

  // A certificate rests on both owners having read the peer's chosen move from their
  // own ROMs.
  lemma CertifiedKnows(c: Config, d: Config, s: Owner, t: Owner, cp: Checkpoint)
    requires LocalAccepted(SnapshotOf(c, s), cp) && LocalAccepted(SnapshotOf(d, t), cp)
    requires Mirrored(SnapshotOf(c, s), SnapshotOf(d, t)) && EffectRead(c, s.ev)
    ensures Knows(c, d)
  {
    var u, v := s.ev.turn.value, t.ev.turn.value;
    assert u.enemyMove == s.ev.baseline.value.enemy.moves[u.receive] == t.ev.baseline.value.local.moves[v.send] == v.localMove;
    assert u.enemyEffect != -1;
    hide ExchangedEffect, PartyLead, RequiredPhases, RoomAccepted, PpSettled, ReplayHp, BaselineValid;
  }

  // Which pairs of accepted configurations can be certified at all: exactly those whose
  // ROMs agree on the two chosen moves and, for a room return, whose parties can all
  // be healed.
  lemma CertifiableExactly(g: Session)
    requires Built(g.listen) && Built(g.connect)
    requires g.listen.role == Listen && g.connect.role == Connect && g.listen.checkpoint == g.connect.checkpoint
    ensures (exists schedule :: CertifiedBy(g, schedule)) <==>
      && Knows(g.listen, g.connect) && Knows(g.connect, g.listen)
      && CanReturn(g.listen) && CanReturn(g.connect)
  {
    var plan := Plan(true, true, true, true);
    assert Whole(plan, g.listen.checkpoint);
    hide *;
    if Knows(g.listen, g.connect) && Knows(g.connect, g.listen) && CanReturn(g.listen) && CanReturn(g.connect) {
      var schedule := PlannedPairVerdict(g, plan, plan);
      assert CertifiedBy(g, schedule);
    }
    forall schedule | CertifiedBy(g, schedule)
      ensures Knows(g.listen, g.connect) && Knows(g.connect, g.listen) && CanReturn(g.listen) && CanReturn(g.connect)
    {
      CertificateNeeds(g, schedule);
    }
  }

  lemma CertificateParts(o: Snapshot, p: Snapshot, cp: Checkpoint)
    requires Verdict([o, p], cp) == Complete
    ensures LocalAccepted(o, cp) && LocalAccepted(p, cp) && Mirrored(o, p) && Mirrored(p, o)
  {
    assert [o, p][0] == o && [o, p][1] == p;
    hide LocalAccepted, Mirrored;
  }

  lemma CertificateNeeds(g: Session, schedule: seq<Scheduled>)
    requires CertifiedBy(g, schedule) && g.listen.checkpoint == g.connect.checkpoint
    ensures Knows(g.listen, g.connect) && Knows(g.connect, g.listen) && CanReturn(g.listen) && CanReturn(g.connect)
  {
    var w, cp := Run(g, schedule), g.listen.checkpoint;
    CertificateParts(SnapshotOf(g.listen, w.listen), SnapshotOf(g.connect, w.connect), cp);
    RunReads(g, schedule, Listen);
    RunReads(g, schedule, Connect);
    BothConfigs(g);
    BothOwners(w);
    hide *;
    CertifiedKnows(g.listen, g.connect, w.listen, w.connect, cp);
    CertifiedKnows(g.connect, g.listen, w.connect, w.listen, cp);
    AcceptedAtGoal(g.listen, w.listen, cp);
    AcceptedAtGoal(g.connect, w.connect, cp);
    GoalNeedsReturn(g, schedule, Listen);
    GoalNeedsReturn(g, schedule, Connect);
  }

  lemma AcceptedAtGoal(c: Config, s: Owner, cp: Checkpoint)
    requires LocalAccepted(SnapshotOf(c, s), cp)
    ensures ObjectiveComplete(c, s)
  {
    hide RequiredPhases, PartyLead, BaselineValid, LocalTurnValid, RoomAccepted;
  }
}
