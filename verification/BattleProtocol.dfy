// The battle owner as a transition system (scripts/_timed_battle_probe.py).
// Every hook callback, input decision and after-step settlement is one step over
// an Owner value; memory contents and hook order are chosen by the environment.
module BattleProtocol {
  import opened Common
  import opened BattleRules
  import opened Interleaving

  const MAX_SEQUENCE: int := 0x7fff_ffff_ffff_ffff

  datatype Phase =
    | PartyQualified | LinkMenuReady | ColosseumReached | BattleMenuReady | PartyInspected
    | PartyCancelled | MoveReady | SettledTurn | RoomReturned

  datatype Checkpoint = SettledTurnGoal | RoomReturnGoal

  datatype Hook =
    | SaveGameData | SerialExchange | LinkMenuWait | LinkMenuDone | SpecialWarp
    | LeftGameboy | RightGameboy | DoBattleOrTrade | MainInBattleLoop | DisplayBattleMenu
    | HandleMenuInput | HandlePartyMenuInput | MoveSelectionMenu | LinkBattleExchange
    | ExecutePlayerMove | ExecuteEnemyMove | PlayerCanExecute | EnemyCanExecute
    | PlayerMoveDone | EnemyMoveDone | ApplyDamageToEnemy | ApplyDamageToPlayer
    | AttackOnEnemyDone | AttackOnPlayerDone | DecrementPp | PlayerFainted | EnemyFainted
    | EndOfBattle | ReturnToRoom | PostExchange | LocalParalyzed | EnemyParalyzed

  datatype Context = Link | Warp | Dialogue | ExchangeWait | Battle | MoveMenu | PartyMenu | Ending | Returning

  // Named inputs the driver sends at most once.
  datatype Once = LinkA | PartyB | InspectA | FightA | MoveA | RunA

  // Input quotas are kept per screen context.
  datatype Quota = Approach | HiddenEvent | InContext(context: Context)

  datatype Button = A | B | Up | Down | Left | Right

  datatype Fault =
    | SequenceExhausted | UnexpectedPartyBoundary | LeadMismatch | InitialBoundary | LeadMoveDiffers
    | BaselineMismatch | ActionsUnfinished | FaintBoundary | TurnRejected | SelectedMoveDisagrees
    | UnexpectedExchange | UnsupportedAction | BadMoveTable | UnqualifiedMove | UnqualifiedEffect
    | ParalysisTurnMismatch | OverlappingDamage | DamageWithoutApplication | DamageCount
    | PpOutsideExecution | EarlyBattleEnd | NotBothRun | ReturnWithoutEnd | QuotaExhausted
    | FrameOffset | MoveDisabled | SerialRole | PartyUnreadable | NotHealed | CleanupFailed

  // ------------------------------------------------------- memory as read

  type ReadMon = m: Combatant | |m.moves| == 4 && |m.pp| == 4
    witness Combatant(0, 0, 0, 0, [0, 0, 0, 0], [0, 0, 0, 0])

  datatype RawParty = RawParty(count: Byte, species: Bytes, records: seq<Bytes>)

  type PartyRam = p: RawParty | |p.species| == 7 && |p.records| == 6 && forall i :: 0 <= i < 6 ==> |p.records[i]| == 44
    witness RawParty(0, seq(7, _ => 0), seq(6, _ => seq(44, _ => 0)))

  // What one callback or one step may read; the game does not advance meanwhile.
  datatype Memory = Memory(
    curMap: Byte, linkState: Byte, inBattle: Byte, serialRole: Byte,
    item: Byte, maxItem: Byte, watchedKeys: Byte, topX: Byte, topY: Byte, partyMenuType: Byte,
    playerSelected: Byte, enemySelected: Byte, send: Byte, receive: Byte, result: Byte,
    whoseTurn: Byte, disabledMove: Byte, moveMissed: Byte, damage: Word,
    x: Byte, y: Byte, facing: Byte, joyIgnore: Byte, walkCounter: Byte, statusFlags5: Byte,
    local: ReadMon, enemy: ReadMon, party: PartyRam)

  // The party as read from memory, or None where the read refuses it.
  ghost function ReadParty(ram: PartyRam): Option<Party> {
    if !(1 <= ram.count <= 6) then None
    else
      var p := Party(ram.count, ram.species[..ram.count + 1], ram.records[..ram.count]);
      if PartyLead(p).Some? then Some(p) else None
  }

  // ----------------------------------------------------- driver and state

  // Fixed at construction.
  datatype Config = Config(
    role: Role, version: Version, checkpoint: Checkpoint, wanted: Option<nat>,
    rom: Rom, before: Party, lead: nat, chosen: Chosen)

  // The exchanged action bytes; an effect of -1 stands for a key never written.
  datatype Exchange = Exchange(
    seqNo: int, send: int, receive: int, localMove: int, enemyMove: int, localEffect: int, enemyEffect: int)

  datatype EndMark = EndMark(seqNo: int, send: Byte, receive: Byte, result: Byte)

  datatype Room = Room(
    end: EndMark, returnSeq: int, settledSeq: int, curMap: Byte, linkState: Byte, inBattle: Byte, healed: Party)

  datatype Pending = Pending(beforeHp: Word, damage: Word)

  // One side's action during the turn and the damage application still open.
  datatype Ledger = Ledger(action: Action, pending: Option<Pending>)

  datatype Evidence = Evidence(
    baseline: Option<Baseline>, exchange: Option<Exchange>, local: Ledger, enemy: Ledger, ppEntries: nat,
    turn: Option<Turn>, end: Option<EndMark>, returned: Option<int>, room: Option<Room>)

  datatype Screen = Screen(context: Option<Context>, poll: Option<Context>, saves: nat, serials: nat)

  datatype Inputs = Inputs(nextInput: int, approachSteps: int, sent: set<Once>, attempts: map<Quota, nat>)

  datatype Owner = Owner(
    flags: set<Phase>, sequence: int, error: Option<Fault>, closed: bool,
    screen: Screen, inputs: Inputs, ev: Evidence)

  const NO_LEDGER: Ledger := Ledger(Action(false, false, NotSkipped, 0, None, []), None)

  const FRESH_OWNER: Owner := Owner(
    {PartyQualified}, 0, None, false, Screen(None, None, 0, 0), Inputs(0, 0, {}, map[]),
    Evidence(None, None, NO_LEDGER, NO_LEDGER, 0, None, None, None, None))

  // Everything the constructor decides before it registers hooks; None where it raises.
  ghost function Construct(role: Role, version: Version, checkpoint: Checkpoint, wanted: Option<nat>, rom: Rom, ram: PartyRam)
    : Option<Config>
  {
    if wanted.Some? && wanted.value > 3 then None
    else
      match ReadParty(ram)
      case None => None
      case Some(p) =>
        var lead := PartyLead(p).value;
        var r := p.records[lead];
        if r[4] != 0 && r[4] != 64 then None
        else
          match Choose(rom, r[8..12], r[29..33], wanted)
          case None => None
          case Some(c) => Some(Config(role, version, checkpoint, wanted, rom, p, lead, c))
  }

  // The facts about a configuration the constructor establishes.
  ghost predicate Qualified(c: Config) {
    && PartyLead(c.before) == Some(c.lead)
    && (c.wanted.Some? ==> c.wanted.value as int == c.chosen.slot)
    && 0 <= c.chosen.slot <= 3
    && 1 <= c.chosen.moveId <= 165
    && CatalogEffect(c.chosen.moveId) == Some(c.chosen.effect)
    && c.before.records[c.lead][8..12][c.chosen.slot] == c.chosen.moveId
  }

  lemma ConstructQualifies(role: Role, version: Version, checkpoint: Checkpoint, wanted: Option<nat>, rom: Rom, ram: PartyRam)
    requires Construct(role, version, checkpoint, wanted, rom, ram).Some?
    ensures Qualified(Construct(role, version, checkpoint, wanted, rom, ram).value)
  {
    var c := Construct(role, version, checkpoint, wanted, rom, ram).value;
    var r := c.before.records[c.lead];
    if wanted.None? {
      ChosenIsFirstSendable(rom, r[8..12], r[29..33], 0, 4, false);
    } else {
      ChosenIsFirstSendable(rom, r[8..12], r[29..33], wanted.value, wanted.value + 1, true);
    }
  }

  // The error kept is the first one.
  function FirstFault(old_: Option<Fault>, new_: Option<Fault>): Option<Fault> {
    if old_.Some? then old_ else new_
  }

  // -------------------------------------------------------- observations

  // What one hook did to the evidence: the evidence afterwards, the error it
  // raised, and the phase it published.
  datatype Seen = Seen(ev: Evidence, fault: Option<Fault>, published: set<Phase>)

  function Refuse(ev: Evidence, f: Fault): Seen { Seen(ev, Some(f), {}) }

  function Noted(ev: Evidence): Seen { Seen(ev, None, {}) }

  function HookContext(h: Hook): Option<Context> {
    match h
    case LinkMenuWait => Some(Link)
    case LinkMenuDone => Some(Warp)
    case SpecialWarp => Some(Warp)
    case LeftGameboy => Some(Dialogue)
    case RightGameboy => Some(Dialogue)
    case DoBattleOrTrade => Some(ExchangeWait)
    case DisplayBattleMenu => Some(Battle)
    case MoveSelectionMenu => Some(MoveMenu)
    case HandlePartyMenuInput => Some(PartyMenu)
    case LinkBattleExchange => Some(ExchangeWait)
    case EndOfBattle => Some(Ending)
    case ReturnToRoom => Some(Returning)
    case _ => None
  }

  // Counters, screen context and polling point after one hook.
  function EnterScreen(s: Screen, h: Hook, partyPolled: bool): Screen {
    var t := s.(saves := if h == SaveGameData then s.saves + 1 else s.saves,
                serials := if h == SerialExchange then s.serials + 1 else s.serials);
    if h == HandlePartyMenuInput && partyPolled then t.(context := Some(PartyMenu), poll := Some(PartyMenu))
    else if HookContext(h).Some? then t.(context := HookContext(h), poll := None)
    else if h == HandleMenuInput then t.(poll := t.context)
    else t
  }

  // First arrival at the battle menu: freeze both combatants as the baseline.
  ghost function ObserveBaseline(c: Config, ev: Evidence, seqNo: int, m: Memory): Seen {
    if m.local.slot as int != c.lead then Refuse(ev, LeadMismatch)
    else if m.local.hp == 0 || (m.local.status != 0 && m.local.status != 64)
         || m.enemy.hp == 0 || (m.enemy.status != 0 && m.enemy.status != 64) then Refuse(ev, InitialBoundary)
    else if !(0 <= c.chosen.slot <= 3) || m.local.moves[c.chosen.slot] != c.chosen.moveId
         || m.local.pp[c.chosen.slot] % 64 == 0 then Refuse(ev, LeadMoveDiffers)
    else if !BaselineValid(c.before, m.local) then Refuse(ev, BaselineMismatch)
    else Seen(ev.(baseline := Some(Baseline(seqNo, m.local, m.enemy))), None, {BattleMenuReady})
  }

  // The turn record assembled from the exchange, the action ledgers and memory.
  function AssembleTurn(b: Baseline, x: Exchange, ev: Evidence, seqNo: int, m: Memory): Turn {
    Turn(x.seqNo, seqNo, x.send, x.receive, x.localMove, x.enemyMove, x.localEffect, x.enemyEffect,
         m.local, m.enemy, ev.local.action, ev.enemy.action, b.local.pp, m.local.pp, ev.ppEntries)
  }

  // Second arrival, after an exchange: freeze the settled turn.
  ghost function ObserveSettlement(ev: Evidence, seqNo: int, m: Memory): Seen
    requires ev.baseline.Some? && ev.exchange.Some?
  {
    if !ev.local.action.done || !ev.enemy.action.done then Refuse(ev, ActionsUnfinished)
    else if m.local.hp == 0 || m.enemy.hp == 0 then Refuse(ev, FaintBoundary)
    else
      var t := AssembleTurn(ev.baseline.value, ev.exchange.value, ev, seqNo, m);
      if !LocalTurnValid(ev.baseline.value, t) then Refuse(ev, TurnRejected)
      else if m.playerSelected as int != t.localMove || m.enemySelected as int != t.enemyMove then
        Refuse(ev, SelectedMoveDisagrees)
      else Seen(ev.(turn := Some(t)), None, {SettledTurn})
  }

  ghost function ObserveMainLoop(c: Config, ev: Evidence, seqNo: int, m: Memory): Seen {
    if ev.baseline.None? then ObserveBaseline(c, ev, seqNo, m)
    else if ev.exchange.Some? && ev.turn.None? then ObserveSettlement(ev, seqNo, m)
    else Noted(ev)
  }

  // The effect byte of an exchanged move, or the reason it is refused.
  datatype EffectRead = Effect(value: Byte) | Refused(fault: Fault)

  function ExchangedEffect(rom: Rom, move: int): EffectRead {
    match MoveData(rom, move)
    case None => Refused(BadMoveTable)
    case Some(row) =>
      if UnsupportedMove(move) then Refused(UnqualifiedMove)
      else if CatalogEffect(move).None? || !SupportedEffect(row.effect) || row.power == 0 then Refused(UnqualifiedEffect)
      else Effect(row.effect)
  }

  // The ordinary continuation right after both players' action bytes crossed.
  function ObserveExchange(c: Config, ev: Evidence, seqNo: int, ready: bool, m: Memory): Seen {
    if ev.turn.Some? then Noted(ev)
    else if ev.exchange.Some? || !ready then Refuse(ev, UnexpectedExchange)
    else if m.send as int != c.chosen.slot || m.receive >= 4 then Refuse(ev, UnsupportedAction)
    else
      var x := Exchange(seqNo, m.send, m.receive, m.playerSelected, m.enemy.moves[m.receive], -1, -1);
      match ExchangedEffect(c.rom, x.localMove)
      case Refused(f) => Refuse(ev.(exchange := Some(x)), f)
      case Effect(le) =>
        match ExchangedEffect(c.rom, x.enemyMove)
        case Refused(f) => Refuse(ev.(exchange := Some(x.(localEffect := le))), f)
        case Effect(ee) => Noted(ev.(exchange := Some(x.(localEffect := le, enemyEffect := ee))))
  }

  // What a hook does to one side's ledger.
  datatype Entry = Entry(ledger: Ledger, fault: Option<Fault>)

  function Paralyse(l: Ledger, whoseTurn: Byte, ownTurn: Byte): Entry {
    if whoseTurn != ownTurn then Entry(l, Some(ParalysisTurnMismatch))
    else Entry(l.(action := l.action.(skip := FullyParalyzed)), None)
  }

  function OpenDamage(l: Ledger, targetHp: Word, damage: Word): Entry {
    if l.pending.Some? then Entry(l, Some(OverlappingDamage))
    else Entry(l.(pending := Some(Pending(targetHp, damage))), None)
  }

  function CloseDamage(l: Ledger, targetHp: Word, missed: Byte): Entry {
    if l.pending.None? || !l.action.executed then Entry(l, Some(DamageWithoutApplication))
    else if |l.action.samples| >= 2 then Entry(l, Some(DamageCount))
    else
      var sample := Sample(l.pending.value.beforeHp, l.pending.value.damage, targetHp, missed);
      Entry(Ledger(l.action.(samples := l.action.samples + [sample], damageDone := l.action.damageDone + 1), None), None)
  }

  function LocalEntry(ev: Evidence, e: Entry): Seen { Seen(ev.(local := e.ledger), e.fault, {}) }

  function EnemyEntry(ev: Evidence, e: Entry): Seen { Seen(ev.(enemy := e.ledger), e.fault, {}) }

  function MarkExecuted(l: Ledger): Entry { Entry(l.(action := l.action.(executed := true)), None) }

  function MarkDone(l: Ledger, missed: Byte): Entry {
    Entry(l.(action := l.action.(done := true, moveMissed := Some(missed))), None)
  }

  function ObserveDecrement(ev: Evidence, m: Memory): Seen {
    if m.whoseTurn != 0 then Noted(ev)
    else if !ev.local.action.executed || ev.local.action.done then Refuse(ev, PpOutsideExecution)
    else Noted(ev.(ppEntries := ev.ppEntries + 1))
  }

  // Hooks that only matter between the exchange and the settled turn.
  function ObserveDuringTurn(ev: Evidence, h: Hook, m: Memory): Seen {
    if ev.exchange.None? || ev.turn.Some? then Noted(ev)
    else
      match h
      case PlayerCanExecute => LocalEntry(ev, MarkExecuted(ev.local))
      case EnemyCanExecute => EnemyEntry(ev, MarkExecuted(ev.enemy))
      case PlayerMoveDone => LocalEntry(ev, MarkDone(ev.local, m.moveMissed))
      case EnemyMoveDone => EnemyEntry(ev, MarkDone(ev.enemy, m.moveMissed))
      case LocalParalyzed => LocalEntry(ev, Paralyse(ev.local, m.whoseTurn, 0))
      case EnemyParalyzed => EnemyEntry(ev, Paralyse(ev.enemy, m.whoseTurn, 1))
      case ApplyDamageToEnemy => LocalEntry(ev, OpenDamage(ev.local, m.enemy.hp, m.damage))
      case ApplyDamageToPlayer => EnemyEntry(ev, OpenDamage(ev.enemy, m.local.hp, m.damage))
      case AttackOnEnemyDone => LocalEntry(ev, CloseDamage(ev.local, m.enemy.hp, m.moveMissed))
      case AttackOnPlayerDone => EnemyEntry(ev, CloseDamage(ev.enemy, m.local.hp, m.moveMissed))
      case DecrementPp => ObserveDecrement(ev, m)
      case _ => Noted(ev)
  }

  predicate BothRan(e: EndMark) { e.send == 15 && e.receive == 15 && e.result == 2 }

  // The end marker is recorded before the action bytes are judged.
  function ObserveEnd(ev: Evidence, seqNo: int, ran: bool, m: Memory): Seen {
    if ev.turn.None? || !ran then Refuse(ev, EarlyBattleEnd)
    else
      var e := EndMark(seqNo, m.send, m.receive, m.result);
      Seen(ev.(end := Some(e)), if BothRan(e) then None else Some(NotBothRun), {})
  }

  function ObserveReturn(ev: Evidence, seqNo: int): Seen {
    if ev.end.None? then Refuse(ev, ReturnWithoutEnd) else Noted(ev.(returned := Some(seqNo)))
  }

  // One hook against the evidence, given the flags and inputs it consults.
  ghost function Observe(c: Config, ev: Evidence, seqNo: int, h: Hook, m: Memory, flags: set<Phase>, sent: set<Once>): Seen {
    match h
    case HandlePartyMenuInput =>
      if InspectA !in sent then Refuse(ev, UnexpectedPartyBoundary) else Seen(ev, None, {PartyInspected})
    case DisplayBattleMenu =>
      if PartyInspected in flags && PartyB in sent then Seen(ev, None, {PartyCancelled}) else Noted(ev)
    case MainInBattleLoop => ObserveMainLoop(c, ev, seqNo, m)
    case PlayerFainted => if ev.turn.None? then Refuse(ev, FaintBoundary) else Noted(ev)
    case EnemyFainted => if ev.turn.None? then Refuse(ev, FaintBoundary) else Noted(ev)
    case PostExchange => ObserveExchange(c, ev, seqNo, PartyCancelled in flags && MoveA in sent, m)
    case EndOfBattle => ObserveEnd(ev, seqNo, RunA in sent, m)
    case ReturnToRoom => ObserveReturn(ev, seqNo)
    case _ => ObserveDuringTurn(ev, h, m)
  }

  function AdoptSeen(s: Owner, seen: Seen, screen: Screen): Owner {
    s.(sequence := s.sequence + 1, ev := seen.ev, error := seen.fault, flags := s.flags + seen.published, screen := screen)
  }

  // A hook callback: silent once closed or failed, otherwise one observation.
  ghost function Callback(c: Config, s: Owner, h: Hook, m: Memory): Owner {
    if s.closed || s.error.Some? then s
    else if s.sequence + 1 >= MAX_SEQUENCE then s.(sequence := s.sequence + 1, error := Some(SequenceExhausted))
    else
      AdoptSeen(s, Observe(c, s.ev, s.sequence + 1, h, m, s.flags, s.inputs.sent),
                EnterScreen(s.screen, h, InspectA in s.inputs.sent))
  }

  // --------------------------------------------------------------- inputs

  type Press = PressOf<Button, Once>

  // What one input decision did: phases published, bookkeeping, input, error.
  datatype Decision = Decision(published: set<Phase>, inputs: Inputs, press: Option<Press>, fault: Option<Fault>)

  function Quantity(attempts: map<Quota, nat>, q: Quota): nat {
    if q in attempts then attempts[q] else 0
  }

  function QuotaLimit(q: Quota): nat {
    match q
    case HiddenEvent => 6
    case Approach => 40
    case InContext(Dialogue) => 40
    case InContext(_) => 16
  }

  function Duration(q: Quota, b: Button): int {
    if q != HiddenEvent then 2 else if b == A then 4 else 8
  }

  function Cadence(q: Quota, b: Button): int {
    if q == HiddenEvent && b != A then 30 else 20
  }

  function Hold(i: Inputs): Decision { Decision({}, i, None, None) }

  // One suggested input: suppressed when already sent, refused past the quota.
  function Pulse(i: Inputs, q: Quota, b: Button, frame: int, once: Option<Once>): Decision {
    if once.Some? && once.value in i.sent then Hold(i)
    else if Quantity(i.attempts, q) >= QuotaLimit(q) then Decision({}, i, None, Some(QuotaExhausted))
    else
      Decision({},
        i.(attempts := i.attempts[q := Quantity(i.attempts, q) + 1],
           sent := if once.Some? then i.sent + {once.value} else i.sent,
           nextInput := frame + Cadence(q, b)),
        Some(Press(frame, b, Duration(q, b), once)), None)
  }

  function Announcing(p: Phase, d: Decision): Decision { d.(published := d.published + {p}) }

  function AtLinkMenu(c: Config, i: Inputs, frame: int, m: Memory, peer: set<Phase>): Decision {
    if m.maxItem != (if c.version == Yellow then 3 else 2) || !AButtonWatched(m.watchedKeys) then Hold(i)
    else if m.item != 1 then Pulse(i, InContext(Link), if m.item < 1 then Down else Up, frame, None)
    else
      Announcing(LinkMenuReady,
        if LinkMenuReady in peer then Pulse(i, InContext(Link), A, frame, Some(LinkA)) else Hold(i))
  }

  function AtPartyMenu(c: Config, i: Inputs, frame: int, m: Memory): Decision {
    if m.partyMenuType == 0 && m.watchedKeys == 3 && m.maxItem as int == c.before.count - 1
    then Pulse(i, InContext(PartyMenu), B, frame, Some(PartyB)) else Hold(i)
  }

  // The battle menu entry to pick and the one-shot name of confirming it.
  function MenuTarget(settled: bool, flags: set<Phase>, peer: set<Phase>): Option<(int, Once)> {
    if settled then (if SettledTurn in peer then Some((3, RunA)) else None)
    else if PartyInspected !in flags then Some((2, InspectA))
    else if PartyCancelled in flags then (if PartyCancelled in peer then Some((0, FightA)) else None)
    else None
  }

  function AtBattleMenu(i: Inputs, frame: int, m: Memory, goal: Option<(int, Once)>): Decision {
    if m.maxItem != 1 || m.topY != 14 || goal.None? then Hold(i)
    else
      var (target, once) := goal.value;
      var column := if m.topX == 9 then 0 else 1;
      if (m.topX != 9 && m.topX != 15) || m.item > 1 then Hold(i)
      else if column != target / 2 then Pulse(i, InContext(Battle), if target / 2 != 0 then Right else Left, frame, None)
      else if m.item as int != target % 2 then Pulse(i, InContext(Battle), if target % 2 != 0 then Down else Up, frame, None)
      else if AButtonWatched(m.watchedKeys) then Pulse(i, InContext(Battle), A, frame, Some(once))
      else Hold(i)
  }

  function AtMoveMenu(c: Config, i: Inputs, frame: int, m: Memory, peer: set<Phase>): Decision {
    if !AButtonWatched(m.watchedKeys) || !(1 <= m.item <= 4) then Hold(i)
    else if m.disabledMove as int / 16 == c.chosen.slot + 1 then Decision({}, i, None, Some(MoveDisabled))
    else if m.item as int != c.chosen.slot + 1 then
      Pulse(i, InContext(MoveMenu), if m.item as int < c.chosen.slot + 1 then Down else Up, frame, None)
    else
      Announcing(MoveReady,
        if MoveReady in peer then Pulse(i, InContext(MoveMenu), A, frame, Some(MoveA)) else Hold(i))
  }

  function InRoom(i: Inputs, frame: int, m: Memory, peer: set<Phase>): Decision {
    if m.curMap != 0xF0 || m.linkState != 1 || ColosseumReached !in peer then Hold(i)
    else if m.serialRole != 1 && m.serialRole != 2 then Decision({}, i, None, Some(SerialRole))
    else
      var (x, facing, turn) := if m.serialRole == 2 then (3, 0x0C, Right) else (6, 0x08, Left);
      if m.joyIgnore != 0 || m.walkCounter != 0 || InputBlocked(m.statusFlags5) || m.x as int != x || m.y != 4 then Hold(i)
      else if m.facing as int != facing then Pulse(i, HiddenEvent, turn, frame, None)
      else Pulse(i, HiddenEvent, A, frame, None)
  }

  function OnApproach(s: Screen, i: Inputs, frame: int): Decision {
    if s.saves != 0 || s.serials != 0 then Hold(i)
    else if i.approachSteps < 3 then Pulse(i.(approachSteps := i.approachSteps + 1), Approach, Up, frame, None)
    else Pulse(i, Approach, A, frame, None)
  }

  predicate ObjectiveComplete(c: Config, s: Owner) {
    && s.error.None?
    && if c.checkpoint == SettledTurnGoal then s.ev.turn.Some? else s.ev.room.Some?
  }

  // The decision by screen; `reached` says the own colosseum flag is up by now.
  function DecideOnScreen(c: Config, s: Owner, frame: int, m: Memory, peer: set<Phase>, reached: bool): Decision {
    var i := s.inputs;
    match s.screen.context
    case Some(Link) => AtLinkMenu(c, i, frame, m, peer)
    case Some(PartyMenu) => if s.screen.poll == Some(PartyMenu) then AtPartyMenu(c, i, frame, m) else Hold(i)
    case Some(Battle) =>
      if s.screen.poll == Some(Battle) then AtBattleMenu(i, frame, m, MenuTarget(s.ev.turn.Some?, s.flags, peer)) else Hold(i)
    case Some(MoveMenu) => if s.screen.poll == Some(MoveMenu) then AtMoveMenu(c, i, frame, m, peer) else Hold(i)
    case Some(Dialogue) => Pulse(i, InContext(Dialogue), A, frame, None)
    case Some(Warp) => if reached || m.curMap == 0xF0 then InRoom(i, frame, m, peer) else Hold(i)
    case None => if reached || m.curMap == 0xF0 then InRoom(i, frame, m, peer) else OnApproach(s.screen, i, frame)
    case _ => Hold(i)
  }

  // The input decision of one frame; `peer` is what the other owner has published.
  function Decide(c: Config, s: Owner, frame: int, m: Memory, peer: set<Phase>): Decision {
    if s.error.Some? || s.closed then Hold(s.inputs)
    else if !(0 <= frame <= MAX_SEQUENCE) then Decision({}, s.inputs, None, Some(FrameOffset))
    else if ObjectiveComplete(c, s) || frame < s.inputs.nextInput || PartyQualified !in peer then Hold(s.inputs)
    else if m.curMap == 240 && m.linkState == 1 then
      Announcing(ColosseumReached, DecideOnScreen(c, s, frame, m, peer, true))
    else DecideOnScreen(c, s, frame, m, peer, ColosseumReached in s.flags)
  }

  function Adopt(s: Owner, d: Decision): Owner {
    s.(flags := s.flags + d.published, inputs := d.inputs, error := FirstFault(s.error, d.fault))
  }

  // ----------------------------------------------------------- settlement

  // After each tick: freeze the room evidence once the room is back.
  ghost function AfterStep(c: Config, s: Owner, m: Memory): Owner {
    if s.error.Some? || s.closed || s.ev.returned.None? || s.ev.room.Some? || s.ev.end.None?
       || m.curMap != 240 || m.linkState != 1 || m.inBattle != 0 then s
    else
      match ReadParty(m.party)
      case None => s.(error := Some(PartyUnreadable))
      case Some(healed) =>
        if !PartyShape(c.before) || !HealedValid(c.before, healed) then s.(error := Some(NotHealed))
        else
          var room := Room(s.ev.end.value, s.ev.returned.value, s.sequence + 1, m.curMap, m.linkState, m.inBattle, healed);
          s.(sequence := s.sequence + 1, flags := s.flags + {RoomReturned}, ev := s.ev.(room := Some(room)))
  }

  function Close(s: Owner, cleanupFails: bool): Owner {
    s.(closed := true, error := FirstFault(s.error, if cleanupFails then Some(CleanupFailed) else None))
  }

  // ---------------------------------------------------------- one step

  datatype Event =
    | Observed(hook: Hook, memory: Memory)
    | Deciding(frame: int, memory: Memory)
    | Ticked(memory: Memory)
    | Closing(cleanupFails: bool)

  ghost function Step(c: Config, s: Owner, e: Event, peer: set<Phase>): Owner {
    match e
    case Observed(h, m) => Callback(c, s, h, m)
    case Deciding(frame, m) => Adopt(s, Decide(c, s, frame, m, peer))
    case Ticked(m) => AfterStep(c, s, m)
    case Closing(f) => Close(s, f)
  }

  // The input an event suggests to the supervisor, if any.
  function Pressed(c: Config, s: Owner, e: Event, peer: set<Phase>): Option<Press> {
    if e.Deciding? then Decide(c, s, e.frame, e.memory, peer).press else None
  }
}
