// The battle owner driver in its own, imperative form: fields updated hook by hook,
// proved to follow the transition system of BattleProtocol
// (scripts/_timed_battle_probe.py, BattleOwnerDriver).
module BattleDriver {
  import opened Common
  import opened BattleRules
  import opened BattleProtocol
  import opened Interleaving
  import opened ReadinessBoard

  function PhaseIndex(p: Phase): nat {
    match p
    case PartyQualified => 0
    case LinkMenuReady => 1
    case ColosseumReached => 2
    case BattleMenuReady => 3
    case PartyInspected => 4
    case PartyCancelled => 5
    case MoveReady => 6
    case SettledTurn => 7
    case RoomReturned => 8
  }

  const PHASES: nat := 9

  method ChooseMove(rom: Rom, moves: FourBytes, pp: FourBytes, wanted: Option<nat>) returns (chosen: Option<Chosen>)
    requires wanted.Some? ==> wanted.value < 4
    ensures chosen == Choose(rom, moves, pp, wanted)
  {
    var from, to := 0, 4;
    if wanted.Some? {
      from, to := wanted.value, wanted.value + 1;
    }
    for slot := from to to
      invariant Choose(rom, moves, pp, wanted) == ChooseFrom(rom, moves, pp, slot, to, wanted.Some?)
    {
      var move := moves[slot];
      if move != 0 && pp[slot] % 64 != 0 {
        var data := MoveData(rom, move);
        if data.None? {
          return None;
        }
        if UnsupportedMove(move) {
          if wanted.Some? {
            return None;
          }
        } else if CatalogEffect(move).Some? && SupportedEffect(data.value.effect) && data.value.power > 0 {
          return Some(Chosen(slot, move, data.value.effect));
        }
      }
    }
    return None;
  }

  method LoadParty(ram: PartyRam) returns (party: Option<Party>)
    ensures party == ReadParty(ram)
  {
    if !(1 <= ram.count <= 6) {
      return None;
    }
    var p := Party(ram.count, ram.species[..ram.count + 1], ram.records[..ram.count]);
    var lead := ValidateParty(p);
    return if lead.Some? then Some(p) else None;
  }

  // What the constructor settles before it registers any hook.
  method Qualify(role: Role, version: Version, checkpoint: Checkpoint, wanted: Option<nat>, rom: Rom, ram: PartyRam)
    returns (config: Option<Config>)
    ensures config == Construct(role, version, checkpoint, wanted, rom, ram)
    ensures config.Some? ==> Qualified(config.value)
  {
    if wanted.Some? && wanted.value > 3 {
      return None;
    }
    var party := LoadParty(ram);
    if party.None? {
      return None;
    }
    var lead := ValidateParty(party.value);
    var r := party.value.records[lead.value];
    if r[4] != 0 && r[4] != 64 {
      return None;
    }
    var chosen := ChooseMove(rom, r[8..12], r[29..33], wanted);
    if chosen.None? {
      return None;
    }
    ConstructQualifies(role, version, checkpoint, wanted, rom, ram);
    return Some(Config(role, version, checkpoint, wanted, rom, party.value, lead.value, chosen.value));
  }

  class BattleOwnerDriver {
    const config: Config
    const peer: PeerReadiness

    var flags: set<Phase>
    var sequence: int
    var nextInput: int
    var approachSteps: int
    var context: Option<Context>
    var poll: Option<Context>
    var error: Option<Fault>
    var closed: bool
    var saves: nat
    var serials: nat
    var sent: set<Once>
    var attempts: map<Quota, nat>
    var baseline: Option<Baseline>
    var exchange: Option<Exchange>
    var turn: Option<Turn>
    var end: Option<EndMark>
    var returned: Option<int>
    var room: Option<Room>
    var local: Ledger
    var enemy: Ledger
    var ppEntries: nat

    ghost function Evidences(): Evidence
      reads this`baseline, this`exchange, this`turn, this`end, this`returned, this`room,
            this`local, this`enemy, this`ppEntries
    {
      Evidence(baseline, exchange, local, enemy, ppEntries, turn, end, returned, room)
    }

    ghost function ScreenNow(): Screen
      reads this`context, this`poll, this`saves, this`serials
    {
      Screen(context, poll, saves, serials)
    }

    ghost function Bookkeeping(): Inputs
      reads this`nextInput, this`approachSteps, this`sent, this`attempts
    {
      Inputs(nextInput, approachSteps, sent, attempts)
    }

    ghost function State(): Owner
      reads this
    {
      Owner(flags, sequence, error, closed, ScreenNow(), Bookkeeping(), Evidences())
    }

    // What the peer has published so far.
    ghost function PeerFlags(): set<Phase>
      requires peer.Valid() && peer.phases == PHASES
      reads peer.raw
    {
      set p: Phase | peer.PeerUp(PhaseIndex(p))
    }

    // The own half of the board says exactly what the flags say.
    ghost predicate FlagsShared()
      requires peer.Valid() && peer.phases == PHASES
      reads this`flags, peer.raw
    {
      forall p: Phase :: p in flags <==> peer.OwnUp(PhaseIndex(p))
    }

    ghost predicate Valid()
      reads this`flags, peer.raw
    {
      peer.Valid() && peer.phases == PHASES && Qualified(config) && FlagsShared()
    }

    constructor (config: Config, peer: PeerReadiness)
      requires Qualified(config) && peer.Valid() && peer.phases == PHASES
      requires forall p: Phase :: !peer.OwnUp(PhaseIndex(p))
      modifies peer.raw
      ensures Valid() && this.config == config && this.peer == peer
      ensures State() == FRESH_OWNER && PeerFlags() == old(set p: Phase | peer.PeerUp(PhaseIndex(p)))
    {
      this.config := config;
      this.peer := peer;
      flags, sequence, nextInput, approachSteps := {}, 0, 0, 0;
      context, poll, error, closed := None, None, None, false;
      saves, serials, sent, attempts := 0, 0, {}, map[];
      baseline, exchange, turn, end, returned, room := None, None, None, None, None, None;
      local, enemy, ppEntries := NO_LEDGER, NO_LEDGER, 0;
      new;
      Publish(PartyQualified);
    }

    method Publish(p: Phase)
      requires Valid()
      modifies this`flags, peer.raw
      ensures Valid() && flags == old(flags) + {p} && PeerFlags() == old(PeerFlags())
    {
      if p !in flags {
        flags := flags + {p};
        peer.PublishReady(PhaseIndex(p));
      }
    }

    method PeerReady(p: Phase) returns (ready: bool)
      requires Valid()
      ensures ready <==> p in PeerFlags()
    {
      ready := peer.PeerReady(PhaseIndex(p));
    }

    // ------------------------------------------------------- observations

    method FreezeBaseline(m: Memory)
      requires Valid() && error.None?
      modifies this`baseline, this`error, this`flags, peer.raw
      ensures Valid() && PeerFlags() == old(PeerFlags())
      ensures var seen := ObserveBaseline(config, old(Evidences()), sequence, m);
        Evidences() == seen.ev && error == seen.fault && flags == old(flags) + seen.published
    {
      hide PeerFlags, FlagsShared, BaselineValid;
      if m.local.slot as int != config.lead {
        error := Some(LeadMismatch);
        return;
      }
      if m.local.hp == 0 || (m.local.status != 0 && m.local.status != 64)
         || m.enemy.hp == 0 || (m.enemy.status != 0 && m.enemy.status != 64) {
        error := Some(InitialBoundary);
        return;
      }
      var slot := config.chosen.slot;
      if m.local.moves[slot] != config.chosen.moveId || m.local.pp[slot] % 64 == 0 {
        error := Some(LeadMoveDiffers);
        return;
      }
      var leads := ValidateBaseline(config.before, m.local);
      if !leads {
        error := Some(BaselineMismatch);
        return;
      }
      baseline := Some(Baseline(sequence, m.local, m.enemy));
      Publish(BattleMenuReady);
    }

    method FreezeTurn(m: Memory)
      requires Valid() && error.None? && baseline.Some? && exchange.Some?
      modifies this`turn, this`error, this`flags, peer.raw
      ensures Valid() && PeerFlags() == old(PeerFlags())
      ensures var seen := ObserveSettlement(old(Evidences()), sequence, m);
        Evidences() == seen.ev && error == seen.fault && flags == old(flags) + seen.published
    {
      hide PeerFlags, FlagsShared, LocalTurnValid, Qualified;
      if !local.action.done || !enemy.action.done {
        error := Some(ActionsUnfinished);
        return;
      }
      if m.local.hp == 0 || m.enemy.hp == 0 {
        error := Some(FaintBoundary);
        return;
      }
      var x := exchange.value;
      var t := Turn(x.seqNo, sequence, x.send, x.receive, x.localMove, x.enemyMove, x.localEffect, x.enemyEffect,
                    m.local, m.enemy, local.action, enemy.action, baseline.value.local.pp, m.local.pp, ppEntries);
      var ok := ValidateLocalTurn(baseline.value, t);
      if !ok {
        error := Some(TurnRejected);
        return;
      }
      if m.playerSelected as int != t.localMove || m.enemySelected as int != t.enemyMove {
        error := Some(SelectedMoveDisagrees);
        return;
      }
      turn := Some(t);
      Publish(SettledTurn);
    }

    method RecordExchange(m: Memory)
      requires Valid() && error.None?
      modifies this`exchange, this`error
      ensures Valid() && PeerFlags() == old(PeerFlags())
      ensures
        var seen := ObserveExchange(config, old(Evidences()), sequence, PartyCancelled in flags && MoveA in sent, m);
        Evidences() == seen.ev && error == seen.fault && flags == old(flags) + seen.published
    {
      hide PeerFlags, FlagsShared, ExchangedEffect, Qualified;
      if turn.Some? {
        return;
      }
      if exchange.Some? || PartyCancelled !in flags || MoveA !in sent {
        error := Some(UnexpectedExchange);
        return;
      }
      if m.send as int != config.chosen.slot || m.receive >= 4 {
        error := Some(UnsupportedAction);
        return;
      }
      exchange := Some(Exchange(sequence, m.send, m.receive, m.playerSelected, m.enemy.moves[m.receive], -1, -1));
      var mine := ExchangedEffect(config.rom, m.playerSelected);
      if mine.Refused? {
        error := Some(mine.fault);
        return;
      }
      exchange := Some(exchange.value.(localEffect := mine.value));
      var theirs := ExchangedEffect(config.rom, m.enemy.moves[m.receive]);
      if theirs.Refused? {
        error := Some(theirs.fault);
        return;
      }
      exchange := Some(exchange.value.(enemyEffect := theirs.value));
    }

    method RecordAction(h: Hook, m: Memory)
      requires error.None?
      modifies this`local, this`enemy, this`ppEntries, this`error
      ensures var seen := ObserveDuringTurn(old(Evidences()), h, m);
        Evidences() == seen.ev && error == seen.fault && seen.published == {}
    {
      hide CloseDamage;
      if exchange.None? || turn.Some? {
        return;
      }
      match h {
        case PlayerCanExecute => local := local.(action := local.action.(executed := true));
        case EnemyCanExecute => enemy := enemy.(action := enemy.action.(executed := true));
        case PlayerMoveDone => local := local.(action := local.action.(done := true, moveMissed := Some(m.moveMissed)));
        case EnemyMoveDone => enemy := enemy.(action := enemy.action.(done := true, moveMissed := Some(m.moveMissed)));
        case LocalParalyzed =>
          if m.whoseTurn != 0 {
            error := Some(ParalysisTurnMismatch);
          } else {
            local := local.(action := local.action.(skip := FullyParalyzed));
          }
        case EnemyParalyzed =>
          if m.whoseTurn != 1 {
            error := Some(ParalysisTurnMismatch);
          } else {
            enemy := enemy.(action := enemy.action.(skip := FullyParalyzed));
          }
        case ApplyDamageToEnemy =>
          if local.pending.Some? {
            error := Some(OverlappingDamage);
          } else {
            local := local.(pending := Some(Pending(m.enemy.hp, m.damage)));
          }
        case ApplyDamageToPlayer =>
          if enemy.pending.Some? {
            error := Some(OverlappingDamage);
          } else {
            enemy := enemy.(pending := Some(Pending(m.local.hp, m.damage)));
          }
        case AttackOnEnemyDone =>
          var e := CloseDamage(local, m.enemy.hp, m.moveMissed);
          local, error := e.ledger, e.fault;
        case AttackOnPlayerDone =>
          var e := CloseDamage(enemy, m.local.hp, m.moveMissed);
          enemy, error := e.ledger, e.fault;
        case DecrementPp =>
          if m.whoseTurn == 0 {
            if !local.action.executed || local.action.done {
              error := Some(PpOutsideExecution);
            } else {
              ppEntries := ppEntries + 1;
            }
          }
        case _ =>
      }
    }

    // The end marker is kept even when the action bytes show no mutual run.
    method RecordEnd(m: Memory)
      requires error.None?
      modifies this`end, this`error
      ensures var seen := BattleProtocol.ObserveEnd(old(Evidences()), sequence, RunA in sent, m);
        Evidences() == seen.ev && error == seen.fault && seen.published == {}
    {
      if turn.None? || RunA !in sent {
        error := Some(EarlyBattleEnd);
        return;
      }
      end := Some(EndMark(sequence, m.send, m.receive, m.result));
      if !BothRan(end.value) {
        error := Some(NotBothRun);
      }
    }

    method RecordReturn()
      requires error.None?
      modifies this`returned, this`error
      ensures var seen := ObserveReturn(old(Evidences()), sequence);
        Evidences() == seen.ev && error == seen.fault && seen.published == {}
    {
      if end.None? {
        error := Some(ReturnWithoutEnd);
        return;
      }
      returned := Some(sequence);
    }

    // Counters, context and polling point of one hook.
    method EnterHook(h: Hook)
      modifies this`saves, this`serials, this`context, this`poll
      ensures ScreenNow() == EnterScreen(old(ScreenNow()), h, InspectA in sent)
    {
      if h == SaveGameData {
        saves := saves + 1;
      }
      if h == SerialExchange {
        serials := serials + 1;
      }
      if HookContext(h).Some? {
        context, poll := HookContext(h), None;
      }
      if h == HandleMenuInput {
        poll := context;
      }
      if h == HandlePartyMenuInput && InspectA in sent {
        poll := Some(PartyMenu);
      }
    }

    lemma TurnEvidence()
      ensures Evidences().turn == turn && Evidences().baseline == baseline && Evidences().exchange == exchange
      ensures Evidences().room == room && Evidences().end == end && Evidences().returned == returned
    {
    }

    // Hooks that only move the menu phases, or fault an early faint.
    method ObserveMenus(h: Hook, m: Memory)
      requires Valid() && error.None?
      requires h in {HandlePartyMenuInput, DisplayBattleMenu, PlayerFainted, EnemyFainted}
      modifies this`flags, this`error, peer.raw
      ensures Valid() && PeerFlags() == old(PeerFlags())
      ensures var seen := BattleProtocol.Observe(config, Evidences(), sequence, h, m, old(flags), sent);
        Evidences() == seen.ev && error == seen.fault && flags == old(flags) + seen.published
    {
      hide Valid, PeerFlags, FlagsShared, Qualified, Evidences;
      TurnEvidence();
      if h == HandlePartyMenuInput {
        if InspectA !in sent {
          error := Some(UnexpectedPartyBoundary);
        } else {
          Publish(PartyInspected);
        }
      } else if h == DisplayBattleMenu {
        if PartyInspected in flags && PartyB in sent {
          Publish(PartyCancelled);
        }
      } else if turn.None? {
        error := Some(FaintBoundary);
      }
    }

    // The main loop hook: the baseline first, then the settled turn.
    method ObserveLoop(m: Memory)
      requires Valid() && error.None?
      modifies this`flags, this`error, this`baseline, this`turn, peer.raw
      ensures Valid() && PeerFlags() == old(PeerFlags())
      ensures var seen := ObserveMainLoop(config, old(Evidences()), sequence, m);
        Evidences() == seen.ev && error == seen.fault && flags == old(flags) + seen.published
    {
      hide Valid, PeerFlags, FlagsShared, Qualified, Evidences, ObserveBaseline, ObserveSettlement;
      TurnEvidence();
      if baseline.None? {
        FreezeBaseline(m);
      } else if exchange.Some? && turn.None? {
        FreezeTurn(m);
      }
    }

    method Observe(h: Hook, m: Memory)
      requires Valid() && error.None?
      modifies this`flags, this`error, this`baseline, this`exchange, this`turn, this`end, this`returned,
               this`local, this`enemy, this`ppEntries, peer.raw
      ensures Valid() && PeerFlags() == old(PeerFlags())
      ensures var seen := BattleProtocol.Observe(config, old(Evidences()), sequence, h, m, old(flags), sent);
        Evidences() == seen.ev && error == seen.fault && flags == old(flags) + seen.published
    {
      hide Valid, PeerFlags, FlagsShared, Qualified, Evidences, ObserveMainLoop, ObserveExchange, ObserveDuringTurn,
           BattleProtocol.ObserveEnd, ObserveReturn;
      if h in {HandlePartyMenuInput, DisplayBattleMenu, PlayerFainted, EnemyFainted} {
        ObserveMenus(h, m);
      } else if h == MainInBattleLoop {
        ObserveLoop(m);
      } else if h == PostExchange {
        RecordExchange(m);
      } else if h == EndOfBattle {
        RecordEnd(m);
      } else if h == ReturnToRoom {
        RecordReturn();
      } else {
        RecordAction(h, m);
      }
    }

    // A live callback: the hook's own screen change, then its observation.
    method Handle(h: Hook, m: Memory)
      requires Valid() && error.None?
      modifies this`saves, this`serials, this`context, this`poll,
               this`flags, this`error, this`baseline, this`exchange, this`turn, this`end, this`returned,
               this`local, this`enemy, this`ppEntries, peer.raw
      ensures Valid() && PeerFlags() == old(PeerFlags())
      ensures ScreenNow() == EnterScreen(old(ScreenNow()), h, InspectA in sent)
      ensures var seen := BattleProtocol.Observe(config, old(Evidences()), sequence, h, m, old(flags), sent);
        Evidences() == seen.ev && error == seen.fault && flags == old(flags) + seen.published
    {
      hide Valid, PeerFlags, FlagsShared, Qualified, Evidences, ScreenNow, BattleProtocol.Observe, EnterScreen;
      EnterHook(h);
      Observe(h, m);
    }

    // A hook callback never raises: the first error is kept, and nothing moves after it.
    method Callback(h: Hook, m: Memory)
      requires Valid()
      modifies this`sequence, this`saves, this`serials, this`context, this`poll,
               this`flags, this`error, this`baseline, this`exchange, this`turn, this`end, this`returned,
               this`local, this`enemy, this`ppEntries, peer.raw
      ensures Valid() && PeerFlags() == old(PeerFlags())
      ensures State() == BattleProtocol.Callback(config, old(State()), h, m)
    {
      hide Valid, PeerFlags, FlagsShared, Qualified, Evidences, ScreenNow, Bookkeeping, BattleProtocol.Observe, EnterScreen;
      if closed || error.Some? {
        return;
      }
      SentBooked();
      sequence := sequence + 1;
      if sequence >= MAX_SEQUENCE {
        error := Some(SequenceExhausted);
      } else {
        Handle(h, m);
      }
    }

    lemma SentBooked()
      ensures Bookkeeping().sent == sent
    {
    }

    // ------------------------------------------------------------- inputs

    // One pulse, as a change of the bookkeeping fields.
    method Pulse(q: Quota, b: Button, frame: int, once: Option<Once>) returns (press: Option<Press>)
      requires error.None?
      modifies this`attempts, this`sent, this`nextInput, this`error
      ensures var d := BattleProtocol.Pulse(old(Bookkeeping()), q, b, frame, once);
        Bookkeeping() == d.inputs && error == d.fault && press == d.press && d.published == {}
    {
      if once.Some? && once.value in sent {
        return None;
      }
      var count := if q in attempts then attempts[q] else 0;
      if count >= QuotaLimit(q) {
        error := Some(QuotaExhausted);
        return None;
      }
      attempts := attempts[q := count + 1];
      if once.Some? {
        sent := sent + {once.value};
      }
      nextInput := frame + Cadence(q, b);
      return Some(Press(frame, b, Duration(q, b), once));
    }

    method LinkMenuInput(frame: int, m: Memory) returns (press: Option<Press>)
      requires Valid() && error.None?
      modifies this`flags, this`attempts, this`sent, this`nextInput, this`error, peer.raw
      ensures Valid() && PeerFlags() == old(PeerFlags())
      ensures var d := AtLinkMenu(config, old(Bookkeeping()), frame, m, old(PeerFlags()));
        Bookkeeping() == d.inputs && error == d.fault && flags == old(flags) + d.published && press == d.press
    {
      hide PeerFlags, FlagsShared, Qualified, BattleProtocol.Pulse;
      if m.maxItem != (if config.version == Yellow then 3 else 2) || !AButtonWatched(m.watchedKeys) {
        return None;
      }
      if m.item != 1 {
        press := Pulse(InContext(Link), if m.item < 1 then Down else Up, frame, None);
        return;
      }
      Publish(LinkMenuReady);
      var ready := PeerReady(LinkMenuReady);
      if ready {
        press := Pulse(InContext(Link), A, frame, Some(LinkA));
      } else {
        press := None;
      }
    }

    method PartyMenuInput(frame: int, m: Memory) returns (press: Option<Press>)
      requires Valid() && error.None?
      modifies this`attempts, this`sent, this`nextInput, this`error
      ensures Valid() && PeerFlags() == old(PeerFlags())
      ensures var d := AtPartyMenu(config, old(Bookkeeping()), frame, m);
        Bookkeeping() == d.inputs && error == d.fault && flags == old(flags) + d.published && press == d.press
    {
      hide PeerFlags, FlagsShared, Qualified, BattleProtocol.Pulse;
      press := None;
      if m.partyMenuType == 0 && m.watchedKeys == 3 && m.maxItem as int == config.before.count - 1 {
        press := Pulse(InContext(PartyMenu), B, frame, Some(PartyB));
      }
    }

    method BattleMenuInput(frame: int, m: Memory) returns (press: Option<Press>)
      requires Valid() && error.None?
      modifies this`attempts, this`sent, this`nextInput, this`error
      ensures Valid() && PeerFlags() == old(PeerFlags())
      ensures var d := AtBattleMenu(old(Bookkeeping()), frame, m, MenuTarget(turn.Some?, flags, old(PeerFlags())));
        Bookkeeping() == d.inputs && error == d.fault && flags == old(flags) + d.published && press == d.press
    {
      hide PeerFlags, FlagsShared, Qualified, BattleProtocol.Pulse;
      press := None;
      if m.maxItem != 1 || m.topY != 14 {
        return;
      }
      var target, once := 0, FightA;
      if turn.Some? {
        var settled := PeerReady(SettledTurn);
        if !settled {
          return;
        }
        target, once := 3, RunA;
      } else if PartyInspected !in flags {
        target, once := 2, InspectA;
      } else if PartyCancelled in flags {
        var cancelled := PeerReady(PartyCancelled);
        if !cancelled {
          return;
        }
      } else {
        return;
      }
      var column := if m.topX == 9 then 0 else 1;
      if (m.topX != 9 && m.topX != 15) || m.item > 1 {
        return;
      }
      if column != target / 2 {
        press := Pulse(InContext(Battle), if target / 2 != 0 then Right else Left, frame, None);
      } else if m.item as int != target % 2 {
        press := Pulse(InContext(Battle), if target % 2 != 0 then Down else Up, frame, None);
      } else if AButtonWatched(m.watchedKeys) {
        press := Pulse(InContext(Battle), A, frame, Some(once));
      }
    }

    method MoveMenuInput(frame: int, m: Memory) returns (press: Option<Press>)
      requires Valid() && error.None?
      modifies this`flags, this`attempts, this`sent, this`nextInput, this`error, peer.raw
      ensures Valid() && PeerFlags() == old(PeerFlags())
      ensures var d := AtMoveMenu(config, old(Bookkeeping()), frame, m, old(PeerFlags()));
        Bookkeeping() == d.inputs && error == d.fault && flags == old(flags) + d.published && press == d.press
    {
      hide PeerFlags, FlagsShared, BattleProtocol.Pulse;
      press := None;
      if !AButtonWatched(m.watchedKeys) || !(1 <= m.item <= 4) {
        return;
      }
      var slot := config.chosen.slot;
      if m.disabledMove as int / 16 == slot + 1 {
        error := Some(MoveDisabled);
        return;
      }
      if m.item as int != slot + 1 {
        press := Pulse(InContext(MoveMenu), if m.item as int < slot + 1 then Down else Up, frame, None);
        return;
      }
      Publish(MoveReady);
      var ready := PeerReady(MoveReady);
      if ready {
        press := Pulse(InContext(MoveMenu), A, frame, Some(MoveA));
      }
    }

    method RoomInput(frame: int, m: Memory) returns (press: Option<Press>)
      requires Valid() && error.None?
      modifies this`attempts, this`sent, this`nextInput, this`error
      ensures Valid() && PeerFlags() == old(PeerFlags())
      ensures var d := InRoom(old(Bookkeeping()), frame, m, old(PeerFlags()));
        Bookkeeping() == d.inputs && error == d.fault && flags == old(flags) + d.published && press == d.press
    {
      hide PeerFlags, FlagsShared, Qualified, BattleProtocol.Pulse;
      press := None;
      if m.curMap != 0xF0 || m.linkState != 1 {
        return;
      }
      var ready := PeerReady(ColosseumReached);
      if !ready {
        return;
      }
      if m.serialRole != 1 && m.serialRole != 2 {
        error := Some(SerialRole);
        return;
      }
      var x, facing, direction := 6, 0x08, Left;
      if m.serialRole == 2 {
        x, facing, direction := 3, 0x0C, Right;
      }
      if m.joyIgnore != 0 || m.walkCounter != 0 || InputBlocked(m.statusFlags5) {
        return;
      }
      if m.x as int != x || m.y != 4 {
        return;
      }
      if m.facing as int != facing {
        press := Pulse(HiddenEvent, direction, frame, None);
      } else {
        press := Pulse(HiddenEvent, A, frame, None);
      }
    }

    method ApproachInput(frame: int) returns (press: Option<Press>)
      requires Valid() && error.None?
      modifies this`attempts, this`sent, this`nextInput, this`approachSteps, this`error
      ensures Valid() && PeerFlags() == old(PeerFlags())
      ensures var d := OnApproach(ScreenNow(), old(Bookkeeping()), frame);
        Bookkeeping() == d.inputs && error == d.fault && flags == old(flags) + d.published && press == d.press
    {
      hide PeerFlags, FlagsShared, Qualified, BattleProtocol.Pulse;
      press := None;
      if saves != 0 || serials != 0 {
        return;
      }
      if approachSteps < 3 {
        approachSteps := approachSteps + 1;
        press := Pulse(Approach, Up, frame, None);
      } else {
        press := Pulse(Approach, A, frame, None);
      }
    }

    method ScreenInput(frame: int, m: Memory) returns (press: Option<Press>)
      requires Valid() && error.None?
      modifies this`flags, this`error, this`attempts, this`sent, this`nextInput, this`approachSteps, peer.raw
      ensures Valid() && PeerFlags() == old(PeerFlags())
      ensures var d := DecideOnScreen(config, old(State()), frame, m, old(PeerFlags()), ColosseumReached in old(flags));
        Bookkeeping() == d.inputs && error == d.fault && flags == old(flags) + d.published && press == d.press
    {
      hide PeerFlags, FlagsShared, Qualified, AtLinkMenu, AtPartyMenu, AtBattleMenu, AtMoveMenu, InRoom, OnApproach, MenuTarget,
           BattleProtocol.Pulse, Bookkeeping;
      press := None;
      if context == Some(Link) {
        press := LinkMenuInput(frame, m);
      } else if context == Some(PartyMenu) && poll == Some(PartyMenu) {
        press := PartyMenuInput(frame, m);
      } else if context == Some(Battle) && poll == Some(Battle) {
        press := BattleMenuInput(frame, m);
      } else if context == Some(MoveMenu) && poll == Some(MoveMenu) {
        press := MoveMenuInput(frame, m);
      } else if context == Some(Dialogue) {
        press := Pulse(InContext(Dialogue), A, frame, None);
      } else if (context == None || context == Some(Warp)) && (ColosseumReached in flags || m.curMap == 0xF0) {
        press := RoomInput(frame, m);
      } else if context == None {
        press := ApproachInput(frame);
      }
    }

    // The decision once nothing holds the owner back: announce the room, then act on
    // the screen.
    method DecideInput(frame: int, m: Memory) returns (press: Option<Press>)
      requires Valid() && error.None? && !closed && 0 <= frame <= MAX_SEQUENCE
      requires !ObjectiveComplete(config, State()) && frame >= nextInput && PartyQualified in PeerFlags()
      modifies this`flags, this`error, this`attempts, this`sent, this`nextInput, this`approachSteps, peer.raw
      ensures Valid() && PeerFlags() == old(PeerFlags())
      ensures var d := Decide(config, old(State()), frame, m, old(PeerFlags()));
        Bookkeeping() == d.inputs && error == d.fault && flags == old(flags) + d.published && press == d.press
    {
      ghost var up := PeerFlags();
      hide Valid, PeerFlags, FlagsShared, Qualified, Evidences, ScreenNow, Bookkeeping, DecideOnScreen, ObjectiveComplete;
      FrameBooked();
      if m.curMap == 240 && m.linkState == 1 {
        AnnouncedFirst(config, State(), frame, m, up);
        Publish(ColosseumReached);
      }
      press := ScreenInput(frame, m);
    }

    lemma FrameBooked()
      ensures Bookkeeping().nextInput == nextInput
    {
    }

    // The input decision of one frame, reading the peer's half of the board.
    method BeforeStep(frame: int, m: Memory) returns (press: Option<Press>)
      requires Valid()
      modifies this`flags, this`error, this`attempts, this`sent, this`nextInput, this`approachSteps, peer.raw
      ensures Valid() && PeerFlags() == old(PeerFlags())
      ensures var d := Decide(config, old(State()), frame, m, old(PeerFlags()));
        State() == Adopt(old(State()), d) && press == d.press
    {
      hide Valid, PeerFlags, FlagsShared, Qualified, Evidences, ScreenNow, Bookkeeping, DecideOnScreen;
      TurnEvidence();
      FrameBooked();
      press := None;
      if error.Some? || closed {
        return;
      }
      if !(0 <= frame <= MAX_SEQUENCE) {
        error := Some(FrameOffset);
        return;
      }
      if (if config.checkpoint == SettledTurnGoal then turn.Some? else room.Some?) || frame < nextInput {
        return;
      }
      var qualified := PeerReady(PartyQualified);
      if qualified {
        press := DecideInput(frame, m);
      }
    }

    lemma QualifiedShape()
      requires Qualified(config)
      ensures PartyShape(config.before)
    {
    }

    // After each tick: freeze the room evidence once the room is back.
    method AfterStep(m: Memory)
      requires Valid()
      modifies this`sequence, this`room, this`flags, this`error, peer.raw
      ensures Valid() && PeerFlags() == old(PeerFlags())
      ensures State() == BattleProtocol.AfterStep(config, old(State()), m)
    {
      hide PeerFlags, FlagsShared, Qualified, Evidences, ScreenNow, Bookkeeping, HealedValid, ReadParty, PartyShape;
      TurnEvidence();
      if error.Some? || closed || returned.None? || room.Some? || end.None? {
        return;
      }
      if m.curMap != 240 || m.linkState != 1 || m.inBattle != 0 {
        return;
      }
      QualifiedShape();
      var healed := LoadParty(m.party);
      if healed.None? {
        error := Some(PartyUnreadable);
        return;
      }
      var ok := ValidateHealed(config.before, healed.value);
      if !ok {
        error := Some(NotHealed);
        return;
      }
      FreezeRoom(m, healed.value);
      Publish(RoomReturned);
    }

    method FreezeRoom(m: Memory, healed: Party)
      requires end.Some? && returned.Some?
      modifies this`sequence, this`room
      ensures sequence == old(sequence) + 1
      ensures Evidences() == old(Evidences()).(room :=
        Some(Room(end.value, returned.value, sequence, m.curMap, m.linkState, m.inBattle, healed)))
    {
      sequence := sequence + 1;
      room := Some(Room(end.value, returned.value, sequence, m.curMap, m.linkState, m.inBattle, healed));
    }

    // Hook removal may fail; either way no callback acts afterwards.
    method Close(cleanupFails: bool)
      requires Valid()
      modifies this`closed, this`error
      ensures Valid() && PeerFlags() == old(PeerFlags())
      ensures State() == BattleProtocol.Close(old(State()), cleanupFails)
    {
      hide PeerFlags, FlagsShared, Qualified, Evidences, ScreenNow, Bookkeeping;
      closed := true;
      if cleanupFails && error.None? {
        error := Some(CleanupFailed);
      }
    }
  }

  // Publishing the room first and then deciding is the same as deciding with the
  // room flag known and publishing both.
  lemma AnnouncedFirst(c: Config, s: Owner, frame: int, m: Memory, peer: set<Phase>)
    ensures
      var t := s.(flags := s.flags + {ColosseumReached});
      var d := DecideOnScreen(c, s, frame, m, peer, true);
      && DecideOnScreen(c, t, frame, m, peer, true) == d
      && Adopt(t, d).flags == Adopt(s, Announcing(ColosseumReached, d)).flags
  {
    hide AtLinkMenu, AtPartyMenu, AtBattleMenu, AtMoveMenu, InRoom, OnApproach;
  }
}
