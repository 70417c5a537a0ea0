// What a battle certificate says, field by field, about the two snapshots it was given
// for: nothing here is stated through the parent's own checks
// (scripts/_timed_battle_probe.py).
module BattleCertificate {
  import opened Common
  import opened BattleRules
  import opened BattleProtocol
  import opened Interleaving
  import opened BattleInvariants
  import opened BattlePair

  // What one side may know of a combatant: everything but its PP.
  function Shown(m: Combatant): (int, int, int, int, Bytes) {
    (m.slot as int, m.species as int, m.hp as int, m.status as int, m.moves)
  }

  // A certified pair tells one story from both ends: each combatant, before and after
  // the turn, is what the other side saw, the slots crossed, and the action records agree.
  lemma CertifiedTellOneStory(o: Snapshot, p: Snapshot, cp: Checkpoint)
    requires Verdict([o, p], cp) == Complete
    ensures o.role != p.role
    ensures o.baseline.Some? && o.turn.Some? && p.baseline.Some? && p.turn.Some?
    ensures
      var b, t, c, u := o.baseline.value, o.turn.value, p.baseline.value, p.turn.value;
      && Shown(b.local) == Shown(c.enemy) && Shown(b.enemy) == Shown(c.local)
      && Shown(t.local) == Shown(u.enemy) && Shown(t.enemy) == Shown(u.local)
      && t.send == u.receive && t.receive == u.send
      && t.localAction == u.enemyAction && t.enemyAction == u.localAction
  {
    hide LocalAccepted;
    assert [o, p][0] == o && [o, p][1] == p;
  }

  // Over every run in which both owners reach their goal, certification is exactly this:
  // both link phases published, both baselines older than the exchange and both ends
  // older than the return on either side, and one story told from both ends.
  lemma CertifiedRunExactly(g: Session, schedule: seq<Scheduled>)
    requires Qualified(g.listen) && Qualified(g.connect)
    requires g.listen.role == Listen && g.connect.role == Connect && g.listen.checkpoint == g.connect.checkpoint
    requires ObjectiveComplete(g.listen, Run(g, schedule).listen) && ObjectiveComplete(g.connect, Run(g, schedule).connect)
    ensures GoalEvidence(g, Run(g, schedule))
    ensures
      var s, r := Run(g, schedule).listen, Run(g, schedule).connect;
      var b, t, c, u := s.ev.baseline.value, s.ev.turn.value, r.ev.baseline.value, r.ev.turn.value;
      Verdict([SnapshotOf(g.listen, s), SnapshotOf(g.connect, r)], g.listen.checkpoint) == Complete <==>
        && LinkMenuReady in s.flags && ColosseumReached in s.flags && LinkMenuReady in r.flags && ColosseumReached in r.flags
        && b.seqNo < t.exchangeSeq && c.seqNo < u.exchangeSeq
        && (g.listen.checkpoint == RoomReturnGoal ==>
              s.ev.room.value.end.seqNo < s.ev.room.value.returnSeq && r.ev.room.value.end.seqNo < r.ev.room.value.returnSeq)
        && Shown(b.local) == Shown(c.enemy) && Shown(b.enemy) == Shown(c.local)
        && Shown(t.local) == Shown(u.enemy) && Shown(t.enemy) == Shown(u.local)
        && t.send == u.receive && t.receive == u.send
        && t.localAction == u.enemyAction && t.enemyAction == u.localAction
  {
    LivePairVerdict(g, schedule);
    RunSound(g, schedule);
    hide Run, Verdict, Qualified, InputsSound, Rendezvous, ObjectiveComplete;
    var w := Run(g, schedule);
    OneStoryMirrors(g.listen, w.listen, g.connect, w.connect);
  }

  lemma OneStoryMirrors(c: Config, s: Owner, d: Config, r: Owner)
    requires OwnerSound(c, s) && s.ev.baseline.Some? && s.ev.turn.Some? && r.ev.baseline.Some? && r.ev.turn.Some?
    ensures
      var b, t, e, u := s.ev.baseline.value, s.ev.turn.value, r.ev.baseline.value, r.ev.turn.value;
      Mirrored(SnapshotOf(c, s), SnapshotOf(d, r)) <==>
        && Shown(b.local) == Shown(e.enemy) && Shown(b.enemy) == Shown(e.local)
        && Shown(t.local) == Shown(u.enemy) && Shown(t.enemy) == Shown(u.local)
        && t.send == u.receive && t.receive == u.send
        && t.localAction == u.enemyAction && t.enemyAction == u.localAction
  {
    hide BaselineValid, HealedValid, PpSettled, CatalogEffect, ReplayHp, ObjectiveComplete;
    var b, t := s.ev.baseline.value, s.ev.turn.value;
    assert SideSettled(b.local, t.local, b.enemy, t.enemy, t.send, t.localMove, t.localEffect, t.localAction);
    assert SideSettled(b.enemy, t.enemy, b.local, t.local, t.receive, t.enemyMove, t.enemyEffect, t.enemyAction);
  }

  // ------------------------------------------------------------- one side of it

  // Each side was supported, at the asked checkpoint and at its goal, published every
  // phase, and recorded baseline, exchange and settlement in this order, for the move it
  // had announced at construction.
  lemma CertifiedInOrder(o: Snapshot, p: Snapshot, cp: Checkpoint, who: bool)
    requires Verdict([o, p], cp) == Complete
    ensures var s := if who then o else p;
      && s.unsupported.None? && s.schemaVersion == 1 && s.checkpoint == cp && s.reached && s.gameplay
      && s.provenanceDisclosed && !s.fullAcceptance
      && (forall phase: Phase :: phase != RoomReturned ==> phase in s.readiness)
      && (cp == RoomReturnGoal ==> RoomReturned in s.readiness)
      && s.baseline.Some? && s.turn.Some?
      && 1 <= s.baseline.value.seqNo < s.turn.value.exchangeSeq < s.turn.value.settledSeq
      && s.chosen.slot == s.turn.value.send && s.chosen.moveId == s.turn.value.localMove
      && s.chosen.effect == s.turn.value.localEffect && (s.moveSlot.Some? ==> s.moveSlot.value == s.turn.value.send)
  {
    hide Mirrored, LocalTurnValid, BaselineValid, RoomAccepted, PartyLead;
    assert [o, p][0] == o && [o, p][1] == p;
    var s := if who then o else p;
    forall phase: Phase | phase != RoomReturned ensures phase in s.readiness {
      match phase {
        case PartyQualified => case LinkMenuReady => case ColosseumReached => case BattleMenuReady => case PartyInspected =>
        case PartyCancelled => case MoveReady => case SettledTurn =>
      }
    }
  }

  // A party as the game holds it: its list of species closed, each record of 44 bytes
  // led by its species.
  ghost predicate WellFormed(p: Party) {
    && 1 <= p.count <= 6 && |p.species| == p.count + 1 && p.species[p.count] == 255 && |p.records| == p.count
    && forall i :: 0 <= i < |p.records| ==> |p.records[i]| == 44 && p.records[i][0] == p.species[i] && 1 <= p.species[i] <= 190
  }

  // The combatant read from the first living record, byte by byte.
  ghost predicate FirstLivingIs(p: Party, m: Combatant)
    requires WellFormed(p)
  {
    && (m.slot as int) < |p.records|
    && (forall i :: 0 <= i < m.slot as int ==> NoHp(p.records[i]))
    && var r := p.records[m.slot as int];
       && m.species == r[0] && m.hp as int == r[1] as int * 256 + r[2] as int && m.hp != 0 && m.status == r[4]
       && m.moves == r[8..12] && m.pp == r[29..33]
  }

  lemma BaselineBytes(p: Party, m: Combatant)
    ensures BaselineValid(p, m) <==> WellFormed(p) && FirstLivingIs(p, m)
  {
    WellFormedShape(p);
    if PartyShape(p) {
      LeadBytes(p, m);
    }
    hide PartyShape, WellFormed, FirstLivingIs, LeadCombatant;
  }

  // Hit points are zero exactly when both their bytes are.
  predicate NoHp(r: Bytes)
    requires |r| == 44
  {
    r[1] == 0 && r[2] == 0
  }

  lemma HpBytes(r: Bytes)
    requires |r| == 44
    ensures RecordHp(r) == 0 <==> NoHp(r)
    ensures RecordHp(r) as int == r[1] as int * 256 + r[2] as int
  {
  }

  lemma NoHpBefore(p: Party, k: nat)
    requires PartyShape(p) && k < |p.records|
    ensures FirstLiving(p.records, 0) == k <==>
      !NoHp(p.records[k]) && forall i :: 0 <= i < k ==> NoHp(p.records[i])
  {
    hide RecordHp, NoHp;
    forall i | 0 <= i < |p.records| ensures RecordHp(p.records[i]) == 0 <==> NoHp(p.records[i]) { HpBytes(p.records[i]); }
    hide FirstLiving;
  }

  lemma SameBytes(p: Party, m: Combatant, k: nat)
    requires PartyShape(p) && WellFormed(p) && k < |p.records| && m.slot as int == k
    ensures m == LeadCombatant(p, k) <==>
      var r := p.records[k];
      && m.species == r[0] && m.hp as int == r[1] as int * 256 + r[2] as int && m.status == r[4]
      && m.moves == r[8..12] && m.pp == r[29..33]
  {
    HpBytes(p.records[k]);
    hide RecordHp, PartyShape;
  }

  lemma LeadSlot(p: Party, k: nat)
    requires PartyShape(p) && k < p.count
    ensures LeadCombatant(p, k).slot as int == k && p.count == |p.records|
  {
  }

  lemma FirstLivingParts(p: Party, m: Combatant)
    requires WellFormed(p) && (m.slot as int) < |p.records|
    ensures FirstLivingIs(p, m) <==>
      var r := p.records[m.slot as int];
      && (forall i :: 0 <= i < m.slot as int ==> NoHp(p.records[i])) && !NoHp(r)
      && m.species == r[0] && m.hp as int == r[1] as int * 256 + r[2] as int && m.status == r[4]
      && m.moves == r[8..12] && m.pp == r[29..33]
  {
    var r := p.records[m.slot as int];
    assert r[1] as int * 256 + r[2] as int != 0 <==> !NoHp(r);
    hide WellFormed;
  }

  lemma LeadBytes(p: Party, m: Combatant)
    requires PartyShape(p) && WellFormed(p)
    ensures (PartyLead(p).Some? && m == LeadCombatant(p, PartyLead(p).value)) <==> FirstLivingIs(p, m)
  {
    var k, slot := FirstLiving(p.records, 0), m.slot as int;
    assert PartyLead(p) == if k < p.count then Some(k) else None;
    if k < p.count { LeadSlot(p, k); }
    if slot < |p.records| {
      NoHpBefore(p, slot);
      SameBytes(p, m, slot);
      FirstLivingParts(p, m);
      hide *;
    }
  }

  lemma WellFormedShape(p: Party)
    ensures PartyShape(p) <==> WellFormed(p)
  {
  }

  // The baseline is the first living member of the initial party.
  lemma CertifiedLead(o: Snapshot, p: Snapshot, cp: Checkpoint, who: bool)
    requires Verdict([o, p], cp) == Complete
    ensures var s := if who then o else p;
      s.baseline.Some? && WellFormed(s.before) && FirstLivingIs(s.before, s.baseline.value.local)
  {
    var s := if who then o else p;
    assert [o, p][0] == o && [o, p][1] == p;
    hide Mirrored, LocalTurnValid, RoomAccepted, RequiredPhases, WellFormed, FirstLivingIs, BaselineValid, PartyLead;
    assert BaselineValid(s.before, s.baseline.value.local);
    BaselineBytes(s.before, s.baseline.value.local);
  }

  // One combatant's own half of the turn: it stayed the same combatant, sent a move of
  // its own, ended, and either was fully paralysed or executed; it missed exactly when it
  // did not damage; its damages, two or none for a double hit and at most one otherwise,
  // lead from the target's hit points before to those after.
  ghost predicate HalfTurn(b: Combatant, a: Combatant, tb: Combatant, ta: Combatant, slot: int, move: int, effect: int, action: Action) {
    && a.slot == b.slot && a.species == b.species && a.moves == b.moves && b.hp >= 1 && a.hp >= 1
    && b.status in {0, 64} && a.status in {0, 64} && 0 <= slot < |b.moves| == 4 && b.moves[slot] == move
    && action.done && |action.samples| == action.damageDone
    && (action.executed <==> action.skip == NotSkipped) && (!action.executed <==> action.skip == FullyParalyzed)
    && (!action.executed ==> a.status == 64 && action.samples == [])
    && (action.executed ==> (action.moveMissed == Some(1) <==> action.samples == []))
    && (action.executed ==> (action.moveMissed == Some(0) <==> action.samples != []))
    && (if effect == 44 then |action.samples| == 0 || |action.samples| == 2 else |action.samples| <= 1)
    && ta.hp == tb.hp - TotalDamage(action.samples)
    && (action.samples != [] ==> action.samples[0].beforeHp == tb.hp && action.samples[|action.samples| - 1].afterHp == ta.hp)
    && (forall i :: 0 <= i < |action.samples| ==>
          action.samples[i].damage == action.samples[i].beforeHp - action.samples[i].afterHp && action.samples[i].afterHp >= 1)
    && (forall i :: 0 < i < |action.samples| ==> action.samples[i].beforeHp == action.samples[i - 1].afterHp)
    && (ta.status != tb.status ==> tb.status == 0 && ta.status == 64 && effect == 6 && action.samples != [])
  }

  lemma CertifiedHalves(o: Snapshot, p: Snapshot, cp: Checkpoint, who: bool)
    requires Verdict([o, p], cp) == Complete
    ensures var s := if who then o else p;
      && s.baseline.Some? && s.turn.Some?
      && var b, t := s.baseline.value, s.turn.value;
         && HalfTurn(b.local, t.local, b.enemy, t.enemy, t.send, t.localMove, t.localEffect, t.localAction)
         && HalfTurn(b.enemy, t.enemy, b.local, t.local, t.receive, t.enemyMove, t.enemyEffect, t.enemyAction)
         && t.ppBefore == b.local.pp && t.ppAfter == t.local.pp
         && (t.localAction.executed <==> t.decrementEntries > 0)
  {
    hide Mirrored, RoomAccepted, RequiredPhases, BaselineValid, PartyLead;
    assert [o, p][0] == o && [o, p][1] == p;
    var s := if who then o else p;
    TurnHalves(s.baseline.value, s.turn.value);
  }

  lemma TurnHalves(b: Baseline, t: Turn)
    requires LocalTurnValid(b, t)
    ensures HalfTurn(b.local, t.local, b.enemy, t.enemy, t.send, t.localMove, t.localEffect, t.localAction)
    ensures HalfTurn(b.enemy, t.enemy, b.local, t.local, t.receive, t.enemyMove, t.enemyEffect, t.enemyAction)
    ensures t.ppBefore == b.local.pp && t.ppAfter == t.local.pp && (t.localAction.executed <==> t.decrementEntries > 0)
  {
    hide HalfTurn, PpSettled, CatalogEffect;
    OneHalf(b.local, t.local, b.enemy, t.enemy, t.send, t.localMove, t.localEffect, t.localAction);
    OneHalf(b.enemy, t.enemy, b.local, t.local, t.receive, t.enemyMove, t.enemyEffect, t.enemyAction);
    PpHalf(b, t);
  }

  lemma PpHalf(b: Baseline, t: Turn)
    requires LocalTurnValid(b, t)
    ensures t.ppBefore == b.local.pp && t.ppAfter == t.local.pp && (t.localAction.executed <==> t.decrementEntries > 0)
  {
    hide SideSettled;
  }

  lemma OneHalf(b: Combatant, a: Combatant, tb: Combatant, ta: Combatant, slot: int, move: int, effect: int, action: Action)
    requires 0 <= slot <= 3 && SideSettled(b, a, tb, ta, slot, move, effect, action)
    requires Fit(tb) && Fit(ta)
    ensures HalfTurn(b, a, tb, ta, slot, move, effect, action)
  {
    hide CatalogEffect;
    ReplayIsSubtraction(tb.hp, action.samples);
    ReplayChains(tb.hp, action.samples);
    hide ReplayHp, TotalDamage;
  }

  // A replay is a chain: each sample starts where the one before it ended.
  lemma {:induction false} ReplayChains(hp: int, samples: seq<Sample>)
    requires ReplayHp(hp, samples).Some?
    ensures samples != [] ==> samples[0].beforeHp == hp && samples[|samples| - 1].afterHp == ReplayHp(hp, samples).value
    ensures forall i :: 0 <= i < |samples| ==> samples[i].damage == samples[i].beforeHp - samples[i].afterHp
    ensures forall i :: 0 < i < |samples| ==> samples[i].beforeHp == samples[i - 1].afterHp
    decreases |samples|
  {
    if samples != [] {
      var rest := samples[1..];
      ReplayChains(samples[0].afterHp, rest);
      forall i | 0 <= i < |samples| ensures samples[i].damage == samples[i].beforeHp - samples[i].afterHp {
        if i > 0 { assert samples[i] == rest[i - 1]; }
      }
      forall i | 0 < i < |samples| ensures samples[i].beforeHp == samples[i - 1].afterHp {
        assert samples[i] == rest[i - 1];
        if i > 1 { assert samples[i - 1] == rest[i - 2]; }
      }
      if rest != [] { assert samples[|samples| - 1] == rest[|rest| - 1]; }
    }
  }

  // A certified room return: both sides ran, the room was entered after the end of the
  // battle, and the party came back healed with nothing else touched.
  lemma CertifiedReturn(o: Snapshot, p: Snapshot, who: bool)
    requires Verdict([o, p], RoomReturnGoal) == Complete
    ensures var s := if who then o else p;
      && s.turn.Some? && s.room.Some?
      && var r := s.room.value;
         && s.turn.value.settledSeq < r.end.seqNo < r.returnSeq < r.settledSeq
         && r.end.send == 15 && r.end.receive == 15 && r.end.result == 2
         && r.curMap == 240 && r.linkState == 1 && r.inBattle == 0
         && r.healed.count == s.before.count && r.healed.species == s.before.species
         && |s.before.records| == s.before.count && |r.healed.records| == s.before.count
         && forall i :: 0 <= i < s.before.count ==>
              var was, now := s.before.records[i], r.healed.records[i];
              && |was| == 44 && |now| == 44
              && now[1] == was[34] && now[2] == was[35] && !(now[1] == 0 && now[2] == 0) && now[4] == 0
              && forall j :: 0 <= j < 44 && j != 1 && j != 2 && j != 4 && !(29 <= j < 33) ==> now[j] == was[j]
  {
    hide Mirrored, LocalTurnValid, BaselineValid, RequiredPhases;
    assert [o, p][0] == o && [o, p][1] == p;
    var s := if who then o else p;
    HealedBytes(s.before, s.room.value.healed);
    hide HealedValid;
  }

  lemma HealedBytes(before: Party, healed: Party)
    requires PartyShape(before) && HealedValid(before, healed)
    ensures healed.count == before.count && healed.species == before.species
    ensures |before.records| == before.count && |healed.records| == before.count
    ensures forall i :: 0 <= i < before.count ==>
      var was, now := before.records[i], healed.records[i];
      && |was| == 44 && |now| == 44
      && now[1] == was[34] && now[2] == was[35] && !(now[1] == 0 && now[2] == 0) && now[4] == 0
      && forall j :: 0 <= j < 44 && j != 1 && j != 2 && j != 4 && !(29 <= j < 33) ==> now[j] == was[j]
  {
    forall i | 0 <= i < before.count
      ensures
        var was, now := before.records[i], healed.records[i];
        && |was| == 44 && |now| == 44
        && now[1] == was[34] && now[2] == was[35] && !(now[1] == 0 && now[2] == 0) && now[4] == 0
        && forall j :: 0 <= j < 44 && j != 1 && j != 2 && j != 4 && !(29 <= j < 33) ==> now[j] == was[j]
    {
      var was, now := before.records[i], healed.records[i];
      assert RecordMatches(was, before.species[i]) && RecordMatches(now, healed.species[i]) && RecordHealed(was, now);
      assert now[1] == now[1..3][0] == now[34..36][0] == now[34] && now[2] == now[1..3][1] == now[34..36][1] == now[35];
    }
  }
}
