// Move catalogue, parties, and the validations shared by the live battle
// observer and the pure parent (scripts/_timed_battle_probe.py,
// scripts/_timed_battle_probe_reads.py, scripts/_timed_battle_probe_schemas.py).
module BattleRules {
  import opened Common

  // ---------------------------------------------------------------- moves

  // One row of the ROM's move table: its identifier, effect and power bytes.
  datatype MoveRow = MoveRow(id: Byte, effect: Byte, power: Byte)

  type Rom = r: seq<MoveRow> | |r| == 165 witness seq(165, _ => MoveRow(0, 0, 0))

  const PLAIN_DAMAGE_MOVES: set<int> := {
    1, 2, 5, 10, 11, 15, 16, 17, 21, 22, 25, 30, 33, 55, 56, 57, 64, 65, 68, 70,
    75, 88, 89, 98, 121, 127, 146, 152, 157, 161, 163}

  function CatalogEffect(move: int): Option<int> {
    if move in PLAIN_DAMAGE_MOVES then Some(0)
    else if move == 9 || move == 84 || move == 85 || move == 87 then Some(6)
    else if move == 24 || move == 155 then Some(44)
    else None
  }

  predicate SupportedEffect(effect: int) { effect == 0 || effect == 6 || effect == 44 }

  // Counter has a catalogue entry but an unqualified return path.
  predicate UnsupportedMove(move: int) { move == 68 }

  // The table row of a move, or None where the source raises.
  function MoveData(rom: Rom, move: int): Option<MoveRow> {
    if !(1 <= move <= 165) then None
    else
      var row := rom[move - 1];
      if row.id != move then None
      else if CatalogEffect(move).Some? && row.effect != CatalogEffect(move).value then None
      else Some(row)
  }

  datatype Chosen = Chosen(slot: int, moveId: int, effect: int)

  type FourBytes = s: Bytes | |s| == 4 witness [0, 0, 0, 0]

  // The first legal supported move among the slots still to be tried; `explicit`
  // says the operator named the slot, which makes an unsupported move fatal.
  function ChooseFrom(rom: Rom, moves: FourBytes, pp: FourBytes, from: nat, to: nat, explicit: bool): Option<Chosen>
    requires from <= to <= 4
    decreases (to - from) as int
  {
    if from == to then None
    else if moves[from] == 0 || pp[from] % 64 == 0 then ChooseFrom(rom, moves, pp, from + 1, to, explicit)
    else
      match MoveData(rom, moves[from])
      case None => None
      case Some(row) =>
        if UnsupportedMove(moves[from]) then
          if explicit then None else ChooseFrom(rom, moves, pp, from + 1, to, explicit)
        else if CatalogEffect(moves[from]).Some? && SupportedEffect(row.effect) && row.power > 0 then
          Some(Chosen(from, moves[from], row.effect))
        else ChooseFrom(rom, moves, pp, from + 1, to, explicit)
  }

  function Choose(rom: Rom, moves: FourBytes, pp: FourBytes, wanted: Option<nat>): Option<Chosen>
    requires wanted.Some? ==> wanted.value < 4
  {
    match wanted
    case None => ChooseFrom(rom, moves, pp, 0, 4, false)
    case Some(slot) => ChooseFrom(rom, moves, pp, slot, slot + 1, true)
  }

  // Whether one slot holds a move the driver is willing to send.
  predicate Sendable(rom: Rom, moves: FourBytes, pp: FourBytes, slot: nat)
    requires slot < 4
  {
    && moves[slot] != 0 && pp[slot] % 64 != 0
    && !UnsupportedMove(moves[slot])
    && CatalogEffect(moves[slot]).Some?
    && MoveData(rom, moves[slot]).Some?
    && MoveData(rom, moves[slot]).value.power > 0
  }

  // The chosen triple names a sendable slot, its move and that move's catalogue
  // effect, and no earlier candidate slot was sendable.
  lemma {:induction false} ChosenIsFirstSendable(
      rom: Rom, moves: FourBytes, pp: FourBytes, from: nat, to: nat, explicit: bool)
    requires from <= to <= 4
    requires ChooseFrom(rom, moves, pp, from, to, explicit).Some?
    ensures var c := ChooseFrom(rom, moves, pp, from, to, explicit).value;
      && from <= c.slot < to
      && Sendable(rom, moves, pp, c.slot)
      && c.moveId == moves[c.slot]
      && Some(c.effect) == CatalogEffect(c.moveId)
      && (forall s :: from <= s < c.slot ==> !Sendable(rom, moves, pp, s))
    decreases (to - from) as int
  {
    if from < to {
      var r := ChooseFrom(rom, moves, pp, from, to, explicit);
      if !Sendable(rom, moves, pp, from) {
        assert r == ChooseFrom(rom, moves, pp, from + 1, to, explicit);
        ChosenIsFirstSendable(rom, moves, pp, from + 1, to, explicit);
      }
    }
  }

  // A slot the search passes over: empty or spent, or unsupported but readable, which
  // only an operator's own choice may not be.
  predicate PassedOver(rom: Rom, moves: FourBytes, pp: FourBytes, slot: nat, explicit: bool)
    requires slot < 4
  {
    || moves[slot] == 0 || pp[slot] % 64 == 0
    || (MoveData(rom, moves[slot]).Some? && !(explicit && UnsupportedMove(moves[slot])))
  }

  // A move is found exactly when some slot is sendable and all before it are passed over.
  lemma {:induction false} ChoosesExactly(rom: Rom, moves: FourBytes, pp: FourBytes, from: nat, to: nat, explicit: bool)
    requires from <= to <= 4
    ensures ChooseFrom(rom, moves, pp, from, to, explicit).Some? <==>
      exists k :: from <= k < to && Sendable(rom, moves, pp, k)
        && forall j :: from <= j < k ==> PassedOver(rom, moves, pp, j, explicit)
    decreases (to - from) as int
  {
    hide MoveData, CatalogEffect, UnsupportedMove;
    if from < to {
      ChoosesExactly(rom, moves, pp, from + 1, to, explicit);
      FirstSlot(rom, moves, pp, from, to, explicit);
      if Sendable(rom, moves, pp, from) {
        assert from <= from < to;
      } else {
        hide Sendable, PassedOver, ChooseFrom;
      }
    }
  }

  lemma FirstSlot(rom: Rom, moves: FourBytes, pp: FourBytes, from: nat, to: nat, explicit: bool)
    requires from < to <= 4
    ensures Sendable(rom, moves, pp, from) ==> ChooseFrom(rom, moves, pp, from, to, explicit).Some?
    ensures !Sendable(rom, moves, pp, from) && PassedOver(rom, moves, pp, from, explicit) ==>
      ChooseFrom(rom, moves, pp, from, to, explicit) == ChooseFrom(rom, moves, pp, from + 1, to, explicit)
    ensures !Sendable(rom, moves, pp, from) && !PassedOver(rom, moves, pp, from, explicit) ==>
      ChooseFrom(rom, moves, pp, from, to, explicit).None?
  {
  }

  // -------------------------------------------------------------- parties

  datatype Party = Party(count: int, species: seq<int>, records: seq<Bytes>)

  function RecordHp(record: Bytes): Word
    requires |record| == 44
  {
    BigEndian(record[1], record[2])
  }

  ghost predicate PartyShape(p: Party) {
    && 1 <= p.count <= 6
    && |p.species| == p.count + 1 && p.species[p.count] == 255
    && |p.records| == p.count
    && forall i :: 0 <= i < p.count ==> RecordMatches(p.records[i], p.species[i])
  }

  predicate RecordMatches(record: Bytes, species: int) {
    |record| == 44 && 1 <= species <= 190 && record[0] == species
  }

  // The least index at or after `from` whose record has hit points left.
  ghost function FirstLiving(records: seq<Bytes>, from: nat): (lead: nat)
    requires from <= |records|
    requires forall i :: 0 <= i < |records| ==> |records[i]| == 44
    ensures from <= lead <= |records|
    ensures forall i :: from <= i < lead ==> RecordHp(records[i]) == 0
    ensures lead < |records| ==> RecordHp(records[lead]) != 0
    decreases |records| - from
  {
    if from == |records| || RecordHp(records[from]) != 0 then from else FirstLiving(records, from + 1)
  }

  // The slot the game sends out first, or None where the party is refused.
  ghost function PartyLead(p: Party): (lead: Option<nat>)
    ensures lead.Some? ==>
      && PartyShape(p) && lead.value < p.count && RecordHp(p.records[lead.value]) != 0
      && forall i :: 0 <= i < lead.value ==> RecordHp(p.records[i]) == 0
  {
    if PartyShape(p) && FirstLiving(p.records, 0) < p.count then Some(FirstLiving(p.records, 0)) else None
  }

  method ValidateParty(p: Party) returns (lead: Option<nat>)
    ensures lead == PartyLead(p)
  {
    if !(1 <= p.count <= 6) || |p.species| != p.count + 1 || p.species[|p.species| - 1] != 255 {
      return None;
    }
    if |p.records| != p.count {
      return None;
    }
    var living: seq<nat> := [];
    for i := 0 to |p.records|
      invariant forall j :: 0 <= j < i ==> RecordMatches(p.records[j], p.species[j])
      invariant living == [] ==> forall j :: 0 <= j < i ==> RecordHp(p.records[j]) == 0
      invariant living != [] ==>
        && living[0] < i && RecordHp(p.records[living[0]]) != 0
        && forall j :: 0 <= j < living[0] ==> RecordHp(p.records[j]) == 0
    {
      if !(1 <= p.species[i] <= 190) || |p.records[i]| != 44 || p.records[i][0] != p.species[i] {
        return None;
      }
      if BigEndian(p.records[i][1], p.records[i][2]) != 0 {
        living := living + [i];
      }
    }
    if living == [] {
      return None;
    }
    return Some(living[0]);
  }

  // -------------------------------------------------- evidence of one turn

  datatype Combatant = Combatant(
    slot: Byte, species: Byte, hp: Word, status: Byte, moves: Bytes, pp: Bytes)

  predicate Fit(m: Combatant) {
    && m.slot <= 5 && 1 <= m.species <= 190 && 1 <= m.hp
    && (m.status == 0 || m.status == 64)
    && |m.moves| == 4 && |m.pp| == 4
  }

  datatype Sample = Sample(beforeHp: Word, damage: Word, afterHp: Word, moveMissed: Byte)

  datatype Skip = NotSkipped | FullyParalyzed | OtherSkip

  datatype Action = Action(
    executed: bool, done: bool, skip: Skip, damageDone: nat, moveMissed: Option<Byte>, samples: seq<Sample>)

  datatype Baseline = Baseline(seqNo: int, local: Combatant, enemy: Combatant)

  datatype Turn = Turn(
    exchangeSeq: int, settledSeq: int, send: int, receive: int,
    localMove: int, enemyMove: int, localEffect: int, enemyEffect: int,
    local: Combatant, enemy: Combatant, localAction: Action, enemyAction: Action,
    ppBefore: Bytes, ppAfter: Bytes, decrementEntries: int)

  // Hit points left after replaying the recorded applications in order, or None
  // as soon as one of them disagrees with the running total.
  ghost function ReplayHp(hp: int, samples: seq<Sample>): Option<int>
    decreases |samples|
  {
    if samples == [] then Some(hp)
    else
      var s := samples[0];
      if s.beforeHp < 1 || s.afterHp < 1 || s.moveMissed != 0 || s.beforeHp != hp
         || s.beforeHp - s.afterHp != s.damage
      then None
      else ReplayHp(s.afterHp, samples[1..])
  }

  method ReplaySamples(hp: int, samples: seq<Sample>) returns (left: Option<int>)
    ensures left == ReplayHp(hp, samples)
  {
    var current := hp;
    var i := 0;
    while i < |samples|
      invariant 0 <= i <= |samples|
      invariant ReplayHp(hp, samples) == ReplayHp(current, samples[i..])
    {
      var s := samples[i];
      assert samples[i..][0] == s && samples[i..][1..] == samples[i + 1..];
      if s.beforeHp < 1 || s.afterHp < 1 || s.moveMissed != 0 {
        return None;
      }
      if s.beforeHp != current || s.beforeHp - s.afterHp != s.damage {
        return None;
      }
      current := s.afterHp;
      i := i + 1;
    }
    return Some(current);
  }

  ghost function TotalDamage(samples: seq<Sample>): int
    decreases |samples|
  {
    if samples == [] then 0 else samples[0].damage + TotalDamage(samples[1..])
  }

  // A replay that succeeds is a subtraction: the hit points left are the start
  // minus every recorded damage, and no application passes through zero.
  lemma {:induction false} ReplayIsSubtraction(hp: int, samples: seq<Sample>)
    requires ReplayHp(hp, samples).Some?
    ensures ReplayHp(hp, samples).value == hp - TotalDamage(samples)
    ensures forall i :: 0 <= i < |samples| ==> samples[i].beforeHp >= 1 && samples[i].afterHp >= 1
    decreases |samples|
  {
    if samples != [] {
      ReplayIsSubtraction(samples[0].afterHp, samples[1..]);
      forall i | 0 <= i < |samples| ensures samples[i].beforeHp >= 1 && samples[i].afterHp >= 1 {
        if i > 0 { assert samples[i] == samples[1..][i - 1]; }
      }
    }
  }

  // The checks one combatant's half of the turn must pass: `mover` acts on
  // `target`, with the states before and after the turn.
  ghost predicate SideSettled(
      moverBefore: Combatant, moverAfter: Combatant, targetBefore: Combatant, targetAfter: Combatant,
      slot: int, move: int, effect: int, action: Action)
    requires 0 <= slot <= 3
  {
    && Fit(moverBefore) && Fit(moverAfter)
    && moverBefore.slot == moverAfter.slot && moverBefore.species == moverAfter.species
    && moverBefore.moves == moverAfter.moves
    && 1 <= move <= 165 && CatalogEffect(move) == Some(effect) && !UnsupportedMove(move)
    && moverBefore.moves[slot] == move
    && action.done
    && action.moveMissed.Some? && action.moveMissed.value <= 1
    && action.damageDone <= (if effect == 44 then 2 else 1)
    && (match action.skip
        case FullyParalyzed => !action.executed && action.damageDone == 0 && moverAfter.status == 64
        case NotSkipped => action.executed
        case OtherSkip => false)
    && |action.samples| == action.damageDone
    && ReplayHp(targetBefore.hp, action.samples) == Some(targetAfter.hp as int)
    && (action.executed && action.samples == [] ==> action.moveMissed.value == 1)
    && (action.samples != [] ==> action.moveMissed.value == 0)
    && (effect == 44 ==> action.damageDone == 0 || action.damageDone == 2)
    && (targetBefore.status != targetAfter.status ==>
        && targetBefore.status == 0 && targetAfter.status == 64 && effect == 6
        && action.executed && action.samples != [] && action.moveMissed.value == 0)
  }

  ghost predicate PpSettled(b: Baseline, t: Turn)
    requires 0 <= t.send <= 3 && |b.local.pp| == 4
  {
    && t.ppBefore == b.local.pp && t.ppAfter == t.local.pp
    && 0 <= t.decrementEntries <= 100000
    && if t.localAction.executed then
         t.decrementEntries > 0 && t.ppBefore[t.send] % 64 != 0
         && t.ppAfter == t.ppBefore[t.send := t.ppBefore[t.send] - 1]
       else t.decrementEntries == 0 && t.ppAfter == t.ppBefore
  }

  // Settlement check used both by the observer before it freezes a turn and by
  // the parent when it reads the frozen turn back.
  ghost predicate LocalTurnValid(b: Baseline, t: Turn) {
    && 0 <= t.send <= 3 && 0 <= t.receive <= 3
    && SideSettled(b.local, t.local, b.enemy, t.enemy, t.send, t.localMove, t.localEffect, t.localAction)
    && SideSettled(b.enemy, t.enemy, b.local, t.local, t.receive, t.enemyMove, t.enemyEffect, t.enemyAction)
    && PpSettled(b, t)
  }

  method ValidateSide(
      moverBefore: Combatant, moverAfter: Combatant, targetBefore: Combatant, targetAfter: Combatant,
      slot: int, move: int, effect: int, action: Action)
    returns (ok: bool)
    requires 0 <= slot <= 3
    ensures ok <==> SideSettled(moverBefore, moverAfter, targetBefore, targetAfter, slot, move, effect, action)
  {
    ok := false;
    if !Fit(moverBefore) || !Fit(moverAfter) { return; }
    if moverBefore.slot != moverAfter.slot || moverBefore.species != moverAfter.species
       || moverBefore.moves != moverAfter.moves { return; }
    if !(1 <= move <= 165) || CatalogEffect(move) != Some(effect) || UnsupportedMove(move) { return; }
    if moverBefore.moves[slot] != move || !action.done { return; }
    if action.moveMissed.None? || action.moveMissed.value > 1 { return; }
    var missed := action.moveMissed.value == 1;
    if action.damageDone > (if effect == 44 then 2 else 1) { return; }
    if action.skip == FullyParalyzed {
      if action.executed || action.damageDone != 0 || moverAfter.status != 64 { return; }
    } else if action.skip != NotSkipped || !action.executed {
      return;
    }
    if |action.samples| != action.damageDone { return; }
    var hp := ReplaySamples(targetBefore.hp, action.samples);
    if hp != Some(targetAfter.hp as int) { return; }
    if action.executed && action.samples == [] && !missed { return; }
    if action.samples != [] && missed { return; }
    if effect == 44 && action.damageDone != 0 && action.damageDone != 2 { return; }
    if targetBefore.status != targetAfter.status
       && !(targetBefore.status == 0 && targetAfter.status == 64 && effect == 6
            && action.executed && action.samples != [] && !missed) { return; }
    ok := true;
  }

  method ValidateLocalTurn(b: Baseline, t: Turn) returns (ok: bool)
    ensures ok <==> LocalTurnValid(b, t)
  {
    ok := false;
    if !(0 <= t.send <= 3) || !(0 <= t.receive <= 3) { return; }
    var localOk := ValidateSide(
      b.local, t.local, b.enemy, t.enemy, t.send, t.localMove, t.localEffect, t.localAction);
    if !localOk { return; }
    var enemyOk := ValidateSide(
      b.enemy, t.enemy, b.local, t.local, t.receive, t.enemyMove, t.enemyEffect, t.enemyAction);
    if !enemyOk { return; }
    if t.ppBefore != b.local.pp || t.ppAfter != t.local.pp { return; }
    if !(0 <= t.decrementEntries <= 100000) { return; }
    var expected := t.ppBefore;
    if t.localAction.executed {
      if t.decrementEntries == 0 || expected[t.send] % 64 == 0 { return; }
      expected := expected[t.send := expected[t.send] - 1];
    } else if t.decrementEntries != 0 {
      return;
    }
    ok := t.ppAfter == expected;
  }

  // The combatant the game must derive from a party member at slot `lead`.
  ghost function LeadCombatant(p: Party, lead: nat): Combatant
    requires PartyShape(p) && lead < p.count
  {
    var r := p.records[lead];
    Combatant(lead, r[0], RecordHp(r), r[4], r[8..12], r[29..33])
  }

  ghost predicate BaselineValid(p: Party, local: Combatant) {
    PartyLead(p).Some? && local == LeadCombatant(p, PartyLead(p).value)
  }

  method ValidateBaseline(p: Party, local: Combatant) returns (ok: bool)
    ensures ok <==> BaselineValid(p, local)
  {
    var lead := ValidateParty(p);
    if lead.None? {
      return false;
    }
    var r := p.records[lead.value];
    return local == Combatant(lead.value, r[0], BigEndian(r[1], r[2]), r[4], r[8..12], r[29..33]);
  }

  // Bytes HealParty may touch: hit points, status and the four PP cells.
  predicate HealableByte(i: int) { i == 1 || i == 2 || i == 4 || 29 <= i <= 32 }

  ghost predicate RecordHealed(before: Bytes, after: Bytes)
    requires |before| == 44 && |after| == 44
  {
    && after[1..3] == after[34..36] && RecordHp(after) != 0 && after[4] == 0
    && forall i :: 0 <= i < 44 && !HealableByte(i) ==> before[i] == after[i]
  }

  ghost predicate HealedValid(before: Party, healed: Party)
    requires PartyShape(before)
  {
    && PartyLead(healed).Some?
    && before.count == healed.count && before.species == healed.species
    && forall i :: 0 <= i < before.count ==> RecordHealed(before.records[i], healed.records[i])
  }

  method ValidateHealed(before: Party, healed: Party) returns (ok: bool)
    requires PartyShape(before)
    ensures ok <==> HealedValid(before, healed)
  {
    var lead := ValidateParty(healed);
    if lead.None? || before.count != healed.count || before.species != healed.species {
      return false;
    }
    for i := 0 to |before.records|
      invariant forall k :: 0 <= k < i ==> RecordHealed(before.records[k], healed.records[k])
    {
      var was, now := before.records[i], healed.records[i];
      assert RecordMatches(was, before.species[i]) && RecordMatches(now, healed.species[i]);
      if now[1..3] != now[34..36] || BigEndian(now[1], now[2]) == 0 || now[4] != 0 {
        return false;
      }
      for j := 0 to 44
        invariant forall k :: 0 <= k < j && !HealableByte(k) ==> was[k] == now[k]
      {
        if !HealableByte(j) && was[j] != now[j] {
          return false;
        }
      }
    }
    return true;
  }
}
