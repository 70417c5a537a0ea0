// Two battle owners interleaved in any order over the shared readiness flags, and
// the pure parent that judges their snapshots (scripts/_timed_battle_probe.py).
module BattlePair {
  import opened Common
  import opened BattleRules
  import opened BattleProtocol
  import opened Interleaving
  import opened BattleInvariants

  // ---------------------------------------------------------------- runs

  type Session = SessionOf<Config>

  type World = WorldOf<Owner, Press>

  type Scheduled = ScheduledOf<Event>

  // One owner takes one step; the other owner is only read through its flags.
  ghost function Advance(g: Session, w: World, s: Scheduled): World {
    var c, o, peer := ConfigOf(g, s.who), OwnerOf(w, s.who), OwnerOf(w, Other(s.who)).flags;
    var o' := Step(c, o, s.event, peer);
    var log' := Extend(LogOf(w, s.who), Pressed(c, o, s.event, peer));
    With(w, s.who, o', log')
  }

  ghost function Run(g: Session, schedule: seq<Scheduled>): World
    decreases |schedule|
  {
    if schedule == [] then World(FRESH_OWNER, FRESH_OWNER, [], [])
    else Advance(g, Run(g, schedule[..|schedule| - 1]), schedule[|schedule| - 1])
  }

  ghost predicate RoleSound(g: Session, w: World, r: Role) {
    && OwnerSound(ConfigOf(g, r), OwnerOf(w, r))
    && Rendezvous(OwnerOf(w, r).inputs.sent, OwnerOf(w, r).flags, OwnerOf(w, Other(r)).flags)
    && InputsSound(OwnerOf(w, r).inputs, LogOf(w, r))
  }

  lemma RendezvousGrows(sent: set<Once>, flags: set<Phase>, peer: set<Phase>, more: set<Phase>)
    requires Rendezvous(sent, flags, peer) && peer <= more
    ensures Rendezvous(sent, flags, more)
  {
  }

  lemma AdvanceKeeps(g: Session, w: World, s: Scheduled)
    requires RoleSound(g, w, Listen) && RoleSound(g, w, Connect)
    ensures RoleSound(g, Advance(g, w, s), Listen) && RoleSound(g, Advance(g, w, s), Connect)
    ensures OnlyAdvances(OwnerOf(w, s.who), OwnerOf(Advance(g, w, s), s.who))
  {
    hide Step, Pressed, OwnerSound, Rendezvous, InputsSound, Extend, Frozen;
    var c, o, p := ConfigOf(g, s.who), OwnerOf(w, s.who), OwnerOf(w, Other(s.who));
    StepKeepsOwnerSound(c, o, s.event, p.flags);
    StepOnlyAdvances(c, o, s.event, p.flags);
    StepKeepsRendezvous(c, o, s.event, p.flags);
    StepKeepsInputs(c, o, s.event, p.flags, LogOf(w, s.who));
    RendezvousGrows(p.inputs.sent, p.flags, o.flags, Step(c, o, s.event, p.flags).flags);
  }

  lemma FreshInputsSound()
    ensures InputsSound(FRESH_OWNER.inputs, [])
  {
  }

  // Every run keeps both owners sound, whatever the interleaving, the hook order
  // and the memory contents.
  lemma {:induction false} RunSound(g: Session, schedule: seq<Scheduled>)
    ensures RoleSound(g, Run(g, schedule), Listen) && RoleSound(g, Run(g, schedule), Connect)
    decreases |schedule|
  {
    hide Advance, OwnerSound, InputsSound;
    if schedule == [] {
      FreshOwnerSound(g.listen);
      FreshOwnerSound(g.connect);
      FreshInputsSound();
    } else {
      RunSound(g, schedule[..|schedule| - 1]);
      AdvanceKeeps(g, Run(g, schedule[..|schedule| - 1]), schedule[|schedule| - 1]);
    }
  }

  // Over every interleaving: a confirming input by one owner means both owners
  // had announced that rendezvous, and neither battle end, room return nor room
  // evidence exists on one side before both sides have frozen their turn.
  lemma RendezvousSafety(g: Session, schedule: seq<Scheduled>, who: Role)
    ensures var own, peer := OwnerOf(Run(g, schedule), who), OwnerOf(Run(g, schedule), Other(who));
      && (LinkA in own.inputs.sent ==> LinkMenuReady in own.flags && LinkMenuReady in peer.flags)
      && (FightA in own.inputs.sent ==> PartyCancelled in own.flags && PartyCancelled in peer.flags)
      && (MoveA in own.inputs.sent ==> MoveReady in own.flags && MoveReady in peer.flags)
      && (RunA in own.inputs.sent ==> own.ev.turn.Some? && peer.ev.turn.Some?)
      && (own.ev.end.Some? || own.ev.returned.Some? || own.ev.room.Some? ==> own.ev.turn.Some?)
      && (own.ev.end.Some? || own.ev.returned.Some? ==> peer.ev.turn.Some?)
      && (own.ev.turn.Some? ==> MoveReady in own.flags && MoveReady in peer.flags)
  {
    hide LocalTurnValid, HealedValid, BaselineValid, PartyShape, InputsSound, Advance;
    RunSound(g, schedule);
  }

  // Room evidence is complete only after the end marker, so it needs both turns too.
  lemma {:induction false} RoomFollowsEnd(g: Session, schedule: seq<Scheduled>, who: Role)
    ensures var o := OwnerOf(Run(g, schedule), who);
      o.ev.room.Some? ==> o.ev.end.Some? && OwnerOf(Run(g, schedule), Other(who)).ev.turn.Some?
    decreases |schedule|
  {
    hide OwnerSound, InputsSound, LocalTurnValid, HealedValid, ReadParty, Observe, EnterScreen, DecideOnScreen;
    if schedule != [] {
      var w := Run(g, schedule[..|schedule| - 1]);
      RoomFollowsEnd(g, schedule[..|schedule| - 1], who);
      RunSound(g, schedule[..|schedule| - 1]);
      AdvanceKeeps(g, w, schedule[|schedule| - 1]);
      RoomNeedsEnd(ConfigOf(g, who), OwnerOf(w, who), schedule[|schedule| - 1].event, OwnerOf(w, Other(who)).flags);
      RendezvousSafety(g, schedule, who);
    }
  }

  lemma RoomNeedsEnd(c: Config, s: Owner, e: Event, peer: set<Phase>)
    requires OwnerSound(c, s)
    requires s.ev.room.Some? ==> s.ev.end.Some?
    ensures Step(c, s, e, peer).ev.room.Some? ==> Step(c, s, e, peer).ev.end.Some?
  {
    hide EvidenceSound, Observe, EnterScreen, ReadParty, HealedValid, Decide;
    if e.Observed? && s.error.None? && !s.closed {
      SeenKeepsRoom(c, s, e.hook, e.memory);
    }
  }

  lemma SeenKeepsRoom(c: Config, s: Owner, h: Hook, m: Memory)
    requires OwnerSound(c, s)
    ensures var seen := Observe(c, s.ev, s.sequence + 1, h, m, s.flags, s.inputs.sent);
      seen.ev.room == s.ev.room && (s.ev.end.Some? ==> seen.ev.end.Some?)
  {
    hide Observe, EvidenceSound;
    ObserveSeen(c, s.ev, s.sequence + 1, h, m, s.flags, s.inputs.sent);
  }

  // Inputs over every run: at most 150 per owner, every one-shot name at most
  // once, and no two hold windows overlapping.
  lemma RunInputsBounded(g: Session, schedule: seq<Scheduled>, who: Role)
    ensures var log := LogOf(Run(g, schedule), who);
      && |log| <= 150
      && (forall o :: NamedCount(log, o) <= 1)
      && (forall i, j :: 0 <= i < j < |log| ==> log[i].frame + log[i].duration <= log[j].frame)
  {
    hide OwnerSound, TotalUsed, QuotasKept, Advance, Run;
    RunSound(g, schedule);
    InputTotalBounded(OwnerOf(Run(g, schedule), who).inputs, LogOf(Run(g, schedule), who));
  }

  // Evidence over every run and every continuation of it: once written it is
  // final, flags never drop, and a failed owner keeps everything it had.
  lemma {:induction false} EvidenceIsFinal(g: Session, schedule: seq<Scheduled>, more: seq<Scheduled>, who: Role)
    ensures OnlyAdvances(OwnerOf(Run(g, schedule), who), OwnerOf(Run(g, schedule + more), who))
    decreases |more|
  {
    hide Advance, OwnerSound, InputsSound;
    if more == [] {
      assert schedule + more == schedule;
    } else {
      var all := schedule + more;
      var init, last := more[..|more| - 1], more[|more| - 1];
      assert all[..|all| - 1] == schedule + init;
      EvidenceIsFinal(g, schedule, init, who);
      RunSound(g, schedule + init);
      AdvanceKeeps(g, Run(g, schedule + init), last);
      OthersUntouched(g, Run(g, schedule + init), last);
      AdvancesChain(OwnerOf(Run(g, schedule), who), OwnerOf(Run(g, schedule + init), who), OwnerOf(Run(g, all), who));
    }
  }

  lemma OthersUntouched(g: Session, w: World, s: Scheduled)
    ensures OwnerOf(Advance(g, w, s), Other(s.who)) == OwnerOf(w, Other(s.who))
    ensures OnlyAdvances(OwnerOf(w, Other(s.who)), OwnerOf(w, Other(s.who)))
  {
    hide Step, Pressed;
  }

  lemma AdvancesChain(r: Owner, s: Owner, t: Owner)
    requires OnlyAdvances(r, s) && OnlyAdvances(s, t)
    ensures OnlyAdvances(r, t)
  {
  }

  // -------------------------------------------------------------- snapshots

  datatype Snapshot = Snapshot(
    schemaVersion: int, role: Role, version: Version, moveSlot: Option<int>, chosen: Chosen, checkpoint: Checkpoint,
    readiness: set<Phase>, reached: bool, gameplay: bool, fullAcceptance: bool, provenanceDisclosed: bool,
    before: Party, baseline: Option<Baseline>, turn: Option<Turn>, room: Option<Room>, unsupported: Option<Fault>)

  function SnapshotOf(c: Config, s: Owner): Snapshot {
    Snapshot(1, c.role, c.version, if c.wanted.Some? then Some(c.wanted.value as int) else None, c.chosen, c.checkpoint,
             s.flags, ObjectiveComplete(c, s), ObjectiveComplete(c, s), false, true,
             c.before, s.ev.baseline, s.ev.turn, s.ev.room, s.error)
  }

  // ----------------------------------------------------------------- parent

  datatype Status = Complete | Mismatch | Unsupported

  predicate RequiredPhases(cp: Checkpoint, flags: set<Phase>) {
    && PartyQualified in flags && LinkMenuReady in flags && ColosseumReached in flags && BattleMenuReady in flags
    && PartyInspected in flags && PartyCancelled in flags && MoveReady in flags && SettledTurn in flags
    && (cp == RoomReturnGoal ==> RoomReturned in flags)
  }

  ghost predicate RoomAccepted(o: Snapshot, t: Turn)
    requires PartyShape(o.before)
  {
    && o.room.Some?
    && var r := o.room.value;
      && 1 <= r.end.seqNo <= MAX_SEQUENCE && 1 <= r.returnSeq <= MAX_SEQUENCE && 1 <= r.settledSeq <= MAX_SEQUENCE
      && HealedValid(o.before, r.healed)
      && t.settledSeq < r.end.seqNo < r.returnSeq < r.settledSeq
      && BothRan(r.end) && r.curMap == 240 && r.linkState == 1 && r.inBattle == 0
  }

  // The checks on one snapshot taken alone.
  ghost predicate LocalAccepted(o: Snapshot, cp: Checkpoint) {
    && o.schemaVersion == 1 && o.checkpoint == cp
    && (o.moveSlot.Some? ==> 0 <= o.moveSlot.value <= 3)
    && o.provenanceDisclosed && !o.fullAcceptance && o.reached && o.gameplay
    && RequiredPhases(cp, o.readiness)
    && PartyLead(o.before).Some? && o.baseline.Some? && o.turn.Some?
    && var b, t := o.baseline.value, o.turn.value;
      && BaselineValid(o.before, b.local)
      && LocalTurnValid(b, t)
      && 1 <= b.seqNo <= MAX_SEQUENCE && 1 <= t.exchangeSeq <= MAX_SEQUENCE && 1 <= t.settledSeq <= MAX_SEQUENCE
      && 0 < b.seqNo < t.exchangeSeq < t.settledSeq
      && 0 <= o.chosen.slot <= 3 && 1 <= o.chosen.moveId <= 165 && 0 <= o.chosen.effect <= 255
      && o.chosen == Chosen(t.send, t.localMove, t.localEffect)
      && (o.moveSlot.Some? ==> o.moveSlot.value == t.send)
      && b.local.slot as int == PartyLead(o.before).value
      && (cp == RoomReturnGoal ==> RoomAccepted(o, t))
  }

  // A combatant seen from both ends; PP is never compared.
  predicate SameMon(a: Combatant, b: Combatant) {
    a.slot == b.slot && a.species == b.species && a.hp == b.hp && a.status == b.status && a.moves == b.moves
  }

  predicate MirrorMons(local: Combatant, enemy: Combatant, peerLocal: Combatant, peerEnemy: Combatant) {
    Fit(local) && Fit(enemy) && SameMon(local, peerEnemy) && SameMon(enemy, peerLocal)
  }

  // The checks of one snapshot against the other.
  predicate Mirrored(o: Snapshot, p: Snapshot) {
    && o.baseline.Some? && o.turn.Some? && p.baseline.Some? && p.turn.Some?
    && var t, u := o.turn.value, p.turn.value;
      && MirrorMons(o.baseline.value.local, o.baseline.value.enemy, p.baseline.value.local, p.baseline.value.enemy)
      && MirrorMons(t.local, t.enemy, u.local, u.enemy)
      && t.send == u.receive && t.receive == u.send
      && t.localAction == u.enemyAction && t.enemyAction == u.localAction
  }

  ghost function OwnerVerdict(o: Snapshot, p: Snapshot, cp: Checkpoint): Status {
    if o.unsupported.Some? then Unsupported
    else if LocalAccepted(o, cp) && Mirrored(o, p) then Complete
    else Mismatch
  }

  ghost function Verdict(owners: seq<Snapshot>, cp: Checkpoint): Status {
    if |owners| != 2 || owners[0].role == owners[1].role then Mismatch
    else if OwnerVerdict(owners[0], owners[1], cp) != Complete then OwnerVerdict(owners[0], owners[1], cp)
    else OwnerVerdict(owners[1], owners[0], cp)
  }

  method JudgeRoom(o: Snapshot, t: Turn) returns (ok: bool)
    requires PartyShape(o.before)
    ensures ok <==> RoomAccepted(o, t)
  {
    if o.room.None? { return false; }
    var r := o.room.value;
    if !(1 <= r.end.seqNo <= MAX_SEQUENCE) || !(1 <= r.returnSeq <= MAX_SEQUENCE)
       || !(1 <= r.settledSeq <= MAX_SEQUENCE) { return false; }
    var healed := ValidateHealed(o.before, r.healed);
    if !healed { return false; }
    if !(t.settledSeq < r.end.seqNo < r.returnSeq < r.settledSeq) { return false; }
    return BothRan(r.end) && r.curMap == 240 && r.linkState == 1 && r.inBattle == 0;
  }

  method JudgeOwner(o: Snapshot, p: Snapshot, cp: Checkpoint) returns (status: Status)
    ensures status == OwnerVerdict(o, p, cp)
  {
    hide LocalTurnValid, HealedValid, FirstLiving, Mirrored, RoomAccepted, RequiredPhases, BaselineValid;
    if o.unsupported.Some? { return Unsupported; }
    if o.schemaVersion != 1 || o.checkpoint != cp { return Mismatch; }
    if o.moveSlot.Some? && !(0 <= o.moveSlot.value <= 3) { return Mismatch; }
    if !o.provenanceDisclosed || o.fullAcceptance || !o.reached || !o.gameplay { return Mismatch; }
    if !RequiredPhases(cp, o.readiness) { return Mismatch; }
    var lead := ValidateParty(o.before);
    if lead.None? || o.baseline.None? || o.turn.None? { return Mismatch; }
    var b, t := o.baseline.value, o.turn.value;
    var leads := ValidateBaseline(o.before, b.local);
    if !leads { return Mismatch; }
    var settled := ValidateLocalTurn(b, t);
    if !settled { return Mismatch; }
    if !(1 <= b.seqNo <= MAX_SEQUENCE) || !(1 <= t.exchangeSeq <= MAX_SEQUENCE)
       || !(1 <= t.settledSeq <= MAX_SEQUENCE) { return Mismatch; }
    if !(0 < b.seqNo < t.exchangeSeq < t.settledSeq) { return Mismatch; }
    if !(0 <= o.chosen.slot <= 3) || !(1 <= o.chosen.moveId <= 165) || !(0 <= o.chosen.effect <= 255) { return Mismatch; }
    if o.chosen != Chosen(t.send, t.localMove, t.localEffect) { return Mismatch; }
    if o.moveSlot.Some? && o.moveSlot.value != t.send { return Mismatch; }
    if b.local.slot as int != lead.value { return Mismatch; }
    if !Mirrored(o, p) { return Mismatch; }
    if cp == RoomReturnGoal {
      var roomOk := JudgeRoom(o, t);
      if !roomOk { return Mismatch; }
    }
    return Complete;
  }

  method AdjudicatePair(owners: seq<Snapshot>, cp: Checkpoint) returns (status: Status)
    ensures status == Verdict(owners, cp)
  {
    if |owners| != 2 || owners[0].role == owners[1].role { return Mismatch; }
    for index := 0 to 2
      invariant forall k :: 0 <= k < index ==> OwnerVerdict(owners[k], owners[1 - k], cp) == Complete
    {
      var one := JudgeOwner(owners[index], owners[1 - index], cp);
      if one != Complete { return one; }
    }
    return Complete;
  }

  // ------------------------------------------------ live observer and parent

  // The few facts a live owner at its goal may still lack: two screen phases, and
  // an order of events that the hooks alone do not force.
  ghost predicate OrderedEvidence(c: Config, s: Owner)
    requires s.ev.baseline.Some? && s.ev.turn.Some?
    requires c.checkpoint == RoomReturnGoal ==> s.ev.room.Some?
  {
    && LinkMenuReady in s.flags && ColosseumReached in s.flags
    && s.ev.baseline.value.seqNo < s.ev.turn.value.exchangeSeq
    && (c.checkpoint == RoomReturnGoal ==> s.ev.room.value.end.seqNo < s.ev.room.value.returnSeq)
  }

  // The move picked before the first hook is the move the frozen turn exchanged.
  lemma ChosenMoveIsExchanged(c: Config, s: Owner)
    requires Qualified(c) && OwnerSound(c, s) && s.ev.turn.Some?
    ensures c.chosen == Chosen(s.ev.turn.value.send, s.ev.turn.value.localMove, s.ev.turn.value.localEffect)
  {
    hide BaselineValid, HealedValid, CatalogEffect, ReplayHp, Fit, PpSettled, FlagsMatch, PartyLead;
    var t := s.ev.turn.value;
    assert SideSettled(s.ev.baseline.value.local, t.local, s.ev.baseline.value.enemy, t.enemy,
                       t.send, t.localMove, t.localEffect, t.localAction);
  }

  // A turn (and room) frozen live passes every check of the parent that looks at
  // one snapshot alone, exactly when its evidence is ordered: the party, lead,
  // move, hit-point and PP checks can never be the cause of a rejection.
  lemma FrozenTurnReaccepted(c: Config, s: Owner, peer: set<Phase>)
    requires Qualified(c) && OwnerSound(c, s) && ObjectiveComplete(c, s)
    requires Rendezvous(s.inputs.sent, s.flags, peer)
    ensures s.ev.baseline.Some? && s.ev.turn.Some?
    ensures LocalAccepted(SnapshotOf(c, s), c.checkpoint) <==> OrderedEvidence(c, s)
  {
    hide LocalTurnValid, HealedValid, BaselineValid, FirstLiving, PartyLead, CatalogEffect;
    assert s.ev.turn.Some?;
    ChosenMoveIsExchanged(c, s);
    TurnCompletesPhases(c, s, peer);
    QualifiedEffectInRange(c);
  }

  lemma QualifiedEffectInRange(c: Config)
    requires Qualified(c)
    ensures 0 <= c.chosen.effect <= 255 && PartyShape(c.before) && PartyLead(c.before).Some?
  {
    hide PLAIN_DAMAGE_MOVES;
  }

  // Six of the eight phases the parent asks for come with the frozen turn itself.
  lemma TurnCompletesPhases(c: Config, s: Owner, peer: set<Phase>)
    requires OwnerSound(c, s) && s.ev.turn.Some?
    requires Rendezvous(s.inputs.sent, s.flags, peer)
    ensures PartyQualified in s.flags && BattleMenuReady in s.flags && PartyInspected in s.flags
    ensures PartyCancelled in s.flags && MoveReady in s.flags && SettledTurn in s.flags
    ensures RequiredPhases(SettledTurnGoal, s.flags) <==> LinkMenuReady in s.flags && ColosseumReached in s.flags
  {
    hide LocalTurnValid, HealedValid, BaselineValid;
    assert MoveA in s.inputs.sent;
    assert NeedsMet(MoveA, s.flags, peer);
  }

  // Over every run in which both owners reach their goal, the parent certifies
  // the pair exactly when both sides' evidence is ordered and the two turns
  // mirror each other: there is no other way for it to refuse.
  lemma LivePairVerdict(g: Session, schedule: seq<Scheduled>)
    requires Qualified(g.listen) && Qualified(g.connect)
    requires g.listen.role == Listen && g.connect.role == Connect
    requires g.listen.checkpoint == g.connect.checkpoint
    requires ObjectiveComplete(g.listen, Run(g, schedule).listen)
    requires ObjectiveComplete(g.connect, Run(g, schedule).connect)
    ensures GoalEvidence(g, Run(g, schedule))
    ensures
      var w := Run(g, schedule);
      var owners := [SnapshotOf(g.listen, w.listen), SnapshotOf(g.connect, w.connect)];
      Verdict(owners, g.listen.checkpoint) == Complete <==>
        OrderedEvidence(g.listen, w.listen) && OrderedEvidence(g.connect, w.connect) && Mirrored(owners[0], owners[1])
  {
    hide Run, OwnerSound, InputsSound, Rendezvous, ObjectiveComplete, LocalAccepted, OrderedEvidence, Mirrored, Qualified;
    RunSound(g, schedule);
    var w := Run(g, schedule);
    FrozenTurnReaccepted(g.listen, w.listen, w.connect.flags);
    FrozenTurnReaccepted(g.connect, w.connect, w.listen.flags);
    LiveSnapshot(g.listen, w.listen);
    LiveSnapshot(g.connect, w.connect);
    if Mirrored(SnapshotOf(g.listen, w.listen), SnapshotOf(g.connect, w.connect)) {
      MirrorsBothWays(g.connect, w.connect, SnapshotOf(g.listen, w.listen));
    }
  }

  ghost predicate GoalEvidence(g: Session, w: World) {
    && w.listen.ev.baseline.Some? && w.listen.ev.turn.Some? && w.connect.ev.baseline.Some? && w.connect.ev.turn.Some?
    && (g.listen.checkpoint == RoomReturnGoal ==> w.listen.ev.room.Some?)
    && (g.connect.checkpoint == RoomReturnGoal ==> w.connect.ev.room.Some?)
  }

  lemma LiveSnapshot(c: Config, s: Owner)
    requires ObjectiveComplete(c, s)
    ensures SnapshotOf(c, s).unsupported.None? && SnapshotOf(c, s).role == c.role
    ensures c.checkpoint == RoomReturnGoal ==> s.ev.room.Some?
  {
  }

  // Fitness is checked on each side's own settlement, so mirroring one way suffices.
  lemma MirrorsBothWays(c: Config, s: Owner, other: Snapshot)
    requires OwnerSound(c, s) && s.ev.turn.Some?
    requires Mirrored(other, SnapshotOf(c, s))
    ensures Mirrored(SnapshotOf(c, s), other)
  {
    hide BaselineValid, HealedValid, PpSettled, CatalogEffect, ReplayHp, FlagsMatch;
    var b, t := s.ev.baseline.value, s.ev.turn.value;
    assert SideSettled(b.local, t.local, b.enemy, t.enemy, t.send, t.localMove, t.localEffect, t.localAction);
    assert SideSettled(b.enemy, t.enemy, b.local, t.local, t.receive, t.enemyMove, t.enemyEffect, t.enemyAction);
  }

  // ---------------------------------------------------------------- ledgers

  // The hit-point and PP account of one turn: every loss is a recorded damage, no
  // application passes through zero, and only the sent slot's PP moves, by one and
  // below its top two bits, exactly when the move was executed.
  ghost predicate Balanced(b: Baseline, t: Turn) {
    && t.local.hp == b.local.hp - TotalDamage(t.enemyAction.samples) && t.local.hp >= 1
    && t.enemy.hp == b.enemy.hp - TotalDamage(t.localAction.samples) && t.enemy.hp >= 1
    && NeverThroughZero(t.localAction.samples) && NeverThroughZero(t.enemyAction.samples)
    && |b.local.pp| == 4 && |t.local.pp| == 4 && 0 <= t.send < 4
    && (forall i :: 0 <= i < 4 && i != t.send ==> t.local.pp[i] == b.local.pp[i])
    && t.local.pp[t.send] as int == b.local.pp[t.send] as int - (if t.localAction.executed then 1 else 0)
    && t.local.pp[t.send] / 64 == b.local.pp[t.send] / 64
  }

  predicate NeverThroughZero(samples: seq<Sample>) {
    forall i :: 0 <= i < |samples| ==> samples[i].beforeHp >= 1 && samples[i].afterHp >= 1
  }

  lemma PpDropsBelowFlags(before: int)
    requires 0 <= before && before % 64 != 0
    ensures (before - 1) / 64 == before / 64
  {
  }

  lemma SettledTurnBalances(b: Baseline, t: Turn)
    requires LocalTurnValid(b, t)
    ensures Balanced(b, t)
  {
    hide CatalogEffect, ReplayHp, TotalDamage;
    ReplayIsSubtraction(b.enemy.hp, t.localAction.samples);
    ReplayIsSubtraction(b.local.hp, t.enemyAction.samples);
    if t.localAction.executed {
      PpDropsBelowFlags(b.local.pp[t.send]);
    }
  }

  // A pair certified complete, from whatever snapshots: both accounts balance, and
  // the two owners hold the same damage ledgers and the same final hit points.
  lemma CompletePairLedger(owners: seq<Snapshot>, cp: Checkpoint, i: nat)
    requires Verdict(owners, cp) == Complete && i < 2
    ensures |owners| == 2 && owners[i].baseline.Some? && owners[i].turn.Some? && owners[1 - i].turn.Some?
    ensures Balanced(owners[i].baseline.value, owners[i].turn.value)
    ensures var t, u := owners[i].turn.value, owners[1 - i].turn.value;
      && t.localAction.samples == u.enemyAction.samples
      && t.local.hp == u.enemy.hp
      && t.local.hp == owners[i].baseline.value.local.hp - TotalDamage(u.localAction.samples)
  {
    hide LocalTurnValid, BaselineValid, RoomAccepted, TotalDamage, RequiredPhases;
    SettledTurnBalances(owners[i].baseline.value, owners[i].turn.value);
  }

  // -------------------------------------------------------- order of reports

  // One report is unsupported, the other one is not but fails its checks.
  ghost predicate Mixed(o: Snapshot, p: Snapshot, cp: Checkpoint) {
    o.unsupported.Some? && p.unsupported.None? && !(LocalAccepted(p, cp) && Mirrored(p, o))
  }

  // The certificate does not depend on which report comes first; the label of a
  // refusal does, exactly when the two owners fail in different ways.
  lemma VerdictOrder(o: Snapshot, p: Snapshot, cp: Checkpoint)
    requires o.role != p.role
    ensures Verdict([o, p], cp) == Complete <==> Verdict([p, o], cp) == Complete
    ensures Verdict([o, p], cp) != Verdict([p, o], cp) <==> Mixed(o, p, cp) || Mixed(p, o, cp)
  {
    hide LocalAccepted, Mirrored;
    assert [o, p][0] == o && [o, p][1] == p && [p, o][0] == p && [p, o][1] == o;
  }

  // Such pairs arise from runs: a fainting before the turn on one side, nothing at all
  // on the other, and the label is the one of the report that comes first.
  lemma LabelFollowsOrder(g: Session, m: Memory) returns (schedule: seq<Scheduled>)
    requires g.listen.role != g.connect.role
    ensures var w := Run(g, schedule);
      var o, p := SnapshotOf(g.listen, w.listen), SnapshotOf(g.connect, w.connect);
      forall cp :: Verdict([o, p], cp) == Unsupported && Verdict([p, o], cp) == Mismatch
  {
    schedule := [Scheduled(Listen, Observed(PlayerFainted, m))];
    assert schedule[..0] == [];
    hide LocalTurnValid, HealedValid, BaselineValid, RoomAccepted, RequiredPhases, PartyLead;
    var w := Run(g, schedule);
    assert Run(g, []) == World(FRESH_OWNER, FRESH_OWNER, [], []) && w == Advance(g, Run(g, []), schedule[0]);
    assert w.listen.error == Some(FaintBoundary) && w.connect == FRESH_OWNER;
    assert !ObjectiveComplete(g.connect, w.connect);
  }
}
