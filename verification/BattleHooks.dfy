// What each other hook of a battle does to an owner, said for every memory and in the
// fields it reads: when it is evidence, when it is an error, and that nothing else moves
// (scripts/_timed_battle_probe.py).
module BattleHooks {
  import opened Common
  import opened BattleRules
  import opened BattleProtocol
  import opened BattleTurns
  import opened BattleCertificate

  // The owner after a hook that left this evidence, error and phase behind.
  function Noticed(s: Owner, h: Hook, ev: Evidence, fault: Option<Fault>, phases: set<Phase>): Owner {
    s.(sequence := s.sequence + 1, ev := ev, error := fault, flags := s.flags + phases,
       screen := EnterScreen(s.screen, h, InspectA in s.inputs.sent))
  }

  // A hook that finds the owner closed or failed changes nothing.
  lemma DeafWhenDone(c: Config, s: Owner, h: Hook, m: Memory, peer: set<Phase>)
    requires s.closed || s.error.Some?
    ensures Step(c, s, Observed(h, m), peer) == s
  {
  }

  // Able to battle: hit points left and no status but paralysis.
  predicate Able(m: Combatant) { m.hp != 0 && (m.status == 0 || m.status == 64) }

  // The first main loop freezes the baseline exactly when both sides can battle, the own
  // one is the qualified lead as its record says, and it still has the chosen move and PP.
  lemma FirstMainLoop(c: Config, s: Owner, m: Memory, peer: set<Phase>)
    requires Awake(s, 1) && s.ev.baseline.None?
    ensures var t := Step(c, s, Observed(MainInBattleLoop, m), peer);
      var good := m.local.slot as int == c.lead && Able(m.local) && Able(m.enemy)
        && 0 <= c.chosen.slot <= 3 && m.local.moves[c.chosen.slot] == c.chosen.moveId && m.local.pp[c.chosen.slot] % 64 != 0
        && WellFormed(c.before) && FirstLivingIs(c.before, m.local);
      && (good ==> t == Noticed(s, MainInBattleLoop,
            s.ev.(baseline := Some(Baseline(s.sequence + 1, m.local, m.enemy))), None, {BattleMenuReady}))
      && (!good ==> t.error.Some? && t == Noticed(s, MainInBattleLoop, s.ev, t.error, {}))
  {
    BaselineBytes(c.before, m.local);
    hide WellFormed, FirstLivingIs, BaselineValid, EnterScreen;
  }

  // A later main loop without an exchange, or after the turn, is not evidence.
  lemma IdleMainLoop(c: Config, s: Owner, m: Memory, peer: set<Phase>)
    requires Awake(s, 1) && s.ev.baseline.Some? && (s.ev.exchange.None? || s.ev.turn.Some?)
    ensures Step(c, s, Observed(MainInBattleLoop, m), peer) == Noticed(s, MainInBattleLoop, s.ev, None, {})
  {
    hide EnterScreen;
  }

  // The turn is not over: a side has not finished, has no hit points left, or another
  // move is selected than was exchanged.
  predicate Unfinished(ev: Evidence, m: Memory)
    requires ev.exchange.Some?
  {
    || !ev.local.action.done || !ev.enemy.action.done || m.local.hp == 0 || m.enemy.hp == 0
    || m.playerSelected as int != ev.exchange.value.localMove || m.enemySelected as int != ev.exchange.value.enemyMove
  }

  // The turn put together from the exchange, the two records and memory.
  ghost predicate PutTogether(s: Owner, m: Memory, u: Turn)
    requires s.ev.exchange.Some?
  {
    var x := s.ev.exchange.value;
    && u.exchangeSeq == x.seqNo && u.settledSeq == s.sequence + 1 && u.send == x.send && u.receive == x.receive
    && u.localMove == x.localMove && u.enemyMove == x.enemyMove && u.localEffect == x.localEffect && u.enemyEffect == x.enemyEffect
    && u.local == m.local && u.enemy == m.enemy && u.decrementEntries == s.ev.ppEntries
    && u.localAction == s.ev.local.action && u.enemyAction == s.ev.enemy.action
  }

  // The main loop that ends the turn: an error, with nothing recorded, while it is not
  // over; otherwise a frozen turn only if both its halves hold.
  lemma LastMainLoop(c: Config, s: Owner, m: Memory, peer: set<Phase>)
    requires Awake(s, 1) && s.ev.baseline.Some? && s.ev.exchange.Some? && s.ev.turn.None?
    ensures var t, b := Step(c, s, Observed(MainInBattleLoop, m), peer), s.ev.baseline.value;
      && (t.error.Some? ==> t == Noticed(s, MainInBattleLoop, s.ev, t.error, {}))
      && (Unfinished(s.ev, m) ==> t.error.Some?)
      && (t.error.None? ==>
            && t.ev.turn.Some?
            && var u := t.ev.turn.value;
               && t == Noticed(s, MainInBattleLoop, s.ev.(turn := Some(u)), None, {SettledTurn}) && PutTogether(s, m, u)
               && HalfTurn(b.local, u.local, b.enemy, u.enemy, u.send, u.localMove, u.localEffect, u.localAction)
               && HalfTurn(b.enemy, u.enemy, b.local, u.local, u.receive, u.enemyMove, u.enemyEffect, u.enemyAction))
  {
    var t, b := Step(c, s, Observed(MainInBattleLoop, m), peer), s.ev.baseline.value;
    SettlementFields(c, s, m, peer);
    if t.error.None? { TurnHalves(b, t.ev.turn.value); }
    hide HalfTurn, LocalTurnValid, EnterScreen, Step, PutTogether, Unfinished;
  }

  lemma SettlementFields(c: Config, s: Owner, m: Memory, peer: set<Phase>)
    requires Awake(s, 1) && s.ev.baseline.Some? && s.ev.exchange.Some? && s.ev.turn.None?
    ensures var t, b := Step(c, s, Observed(MainInBattleLoop, m), peer), s.ev.baseline.value;
      && (t.error.Some? ==> t == Noticed(s, MainInBattleLoop, s.ev, t.error, {}))
      && (Unfinished(s.ev, m) ==> t.error.Some?)
      && (t.error.None? ==>
            && t.ev.turn.Some? && t == Noticed(s, MainInBattleLoop, s.ev.(turn := t.ev.turn), None, {SettledTurn})
            && PutTogether(s, m, t.ev.turn.value) && LocalTurnValid(b, t.ev.turn.value))
  {
    hide LocalTurnValid, EnterScreen;
  }

  // The row of a move in the ROM's table can be used: it is the move's own, its effect is
  // the catalogue's and it does damage; Counter is not supported.
  predicate Usable(rom: Rom, move: int) {
    && 1 <= move <= 165 && rom[move - 1].id as int == move && move != 68
    && CatalogEffect(move) == Some(rom[move - 1].effect as int) && rom[move - 1].power > 0
  }

  lemma UsableExactly(rom: Rom, move: int)
    ensures ExchangedEffect(rom, move).Effect? <==> Usable(rom, move)
    ensures Usable(rom, move) ==> ExchangedEffect(rom, move) == Effect(rom[move - 1].effect)
  {
    hide PLAIN_DAMAGE_MOVES;
  }

  // The exchange is accepted exactly once, after the own confirmation, for the chosen
  // slot, a slot of the enemy's, and two moves both usable in the own ROM.
  lemma ExchangeHook(c: Config, s: Owner, m: Memory, peer: set<Phase>)
    requires Awake(s, 1) && s.ev.turn.None?
    ensures var t := Step(c, s, Observed(PostExchange, m), peer);
      var good := s.ev.exchange.None? && PartyCancelled in s.flags && MoveA in s.inputs.sent
        && m.send as int == c.chosen.slot && m.receive < 4
        && Usable(c.rom, m.playerSelected) && Usable(c.rom, m.enemy.moves[m.receive]);
      && (t.error.None? <==> good)
      && (good ==> t == Noticed(s, PostExchange, s.ev.(exchange := Some(Exchange(
            s.sequence + 1, m.send, m.receive, m.playerSelected, m.enemy.moves[m.receive],
            c.rom[m.playerSelected - 1].effect, c.rom[m.enemy.moves[m.receive] - 1].effect))), None, {}))
  {
    UsableExactly(c.rom, m.playerSelected);
    if m.receive < 4 { UsableExactly(c.rom, m.enemy.moves[m.receive]); }
    hide Usable, ExchangedEffect, EnterScreen;
  }

  // The battle may end only after the turn and the own RUN, and both must have run; the
  // end is recorded either way.
  lemma EndHook(c: Config, s: Owner, m: Memory, peer: set<Phase>)
    requires Awake(s, 1)
    ensures var t := Step(c, s, Observed(EndOfBattle, m), peer);
      if s.ev.turn.None? || RunA !in s.inputs.sent then t == Noticed(s, EndOfBattle, s.ev, Some(EarlyBattleEnd), {})
      else t == Noticed(s, EndOfBattle, s.ev.(end := Some(EndMark(s.sequence + 1, m.send, m.receive, m.result))),
                        if m.send == 15 && m.receive == 15 && m.result == 2 then None else Some(NotBothRun), {})
  {
    hide EnterScreen;
  }

  lemma ReturnHook(c: Config, s: Owner, m: Memory, peer: set<Phase>)
    requires Awake(s, 1)
    ensures Step(c, s, Observed(ReturnToRoom, m), peer)
      == if s.ev.end.None? then Noticed(s, ReturnToRoom, s.ev, Some(ReturnWithoutEnd), {})
         else Noticed(s, ReturnToRoom, s.ev.(returned := Some(s.sequence + 1)), None, {})
  {
    hide EnterScreen;
  }

  // A fainting before the turn is frozen ends the attempt; later it is no evidence.
  lemma FaintHook(c: Config, s: Owner, h: Hook, m: Memory, peer: set<Phase>)
    requires Awake(s, 1) && (h == PlayerFainted || h == EnemyFainted)
    ensures Step(c, s, Observed(h, m), peer) == Noticed(s, h, s.ev, if s.ev.turn.None? then Some(FaintBoundary) else None, {})
  {
    hide EnterScreen;
  }

  // The party screen may show only after its own confirmation, and is left once it was
  // both seen and left by B.
  lemma PartyHooks(c: Config, s: Owner, m: Memory, peer: set<Phase>)
    requires Awake(s, 1)
    ensures Step(c, s, Observed(HandlePartyMenuInput, m), peer)
      == if InspectA in s.inputs.sent then Noticed(s, HandlePartyMenuInput, s.ev, None, {PartyInspected})
         else Noticed(s, HandlePartyMenuInput, s.ev, Some(UnexpectedPartyBoundary), {})
    ensures Step(c, s, Observed(DisplayBattleMenu, m), peer)
      == Noticed(s, DisplayBattleMenu, s.ev, None,
                 if PartyInspected in s.flags && PartyB in s.inputs.sent then {PartyCancelled} else {})
  {
    hide EnterScreen;
  }

  // A hook of the action before the exchange or after the turn is no evidence.
  lemma OutsideTurn(c: Config, s: Owner, h: Hook, m: Memory, peer: set<Phase>)
    requires Awake(s, 1) && (s.ev.exchange.None? || s.ev.turn.Some?)
    requires h in {PlayerCanExecute, EnemyCanExecute, PlayerMoveDone, EnemyMoveDone, ApplyDamageToEnemy, ApplyDamageToPlayer,
                   AttackOnEnemyDone, AttackOnPlayerDone, DecrementPp, LocalParalyzed, EnemyParalyzed}
    ensures Step(c, s, Observed(h, m), peer) == Noticed(s, h, s.ev, None, {})
  {
    hide EnterScreen;
  }

  // After a tick: the room is frozen once, exactly when the battle ended, the game
  // returned, and memory shows the quiet room; a party read there that is not the healed
  // one, byte by byte, is an error.
  lemma RoomTick(c: Config, s: Owner, m: Memory, peer: set<Phase>)
    requires Awake(s, 1) && PartyShape(c.before)
    ensures var t := Step(c, s, Ticked(m), peer);
      var due := s.ev.returned.Some? && s.ev.end.Some? && s.ev.room.None? && m.curMap == 240 && m.linkState == 1 && m.inBattle == 0;
      && (!due ==> t == s)
      && (due && t.error.Some? ==> t == s.(error := t.error))
      && (due && t.error.None? ==>
            && t.ev.room.Some?
            && var r := t.ev.room.value;
               && t == s.(sequence := s.sequence + 1, flags := s.flags + {RoomReturned}, ev := s.ev.(room := Some(r)))
               && r.end == s.ev.end.value && r.returnSeq == s.ev.returned.value && r.settledSeq == s.sequence + 1
               && r.curMap == 240 && r.linkState == 1 && r.inBattle == 0
               && ReadParty(m.party) == Some(r.healed) && HealedValid(c.before, r.healed))
      && (due ==> (t.error.None? <==> ReadParty(m.party).Some? && HealedValid(c.before, ReadParty(m.party).value)))
  {
    hide HealedValid, ReadParty;
  }
}
