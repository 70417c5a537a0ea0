// The trade owner as a transition system (scripts/_timed_trade_probe.py). Memory
// contents and hook order are chosen by the environment.
module TradeProtocol {
  import opened Common
  import opened TradeRules
  import opened Interleaving

  datatype Phase =
    | PartyQualified | LinkMenuReady | LinkMenuApplied | TradeCenterReached | SelectMonReady
    | OutgoingSlotReady | CopyValidated | CycleReturned

  datatype Checkpoint = SelectMonGoal | ExchangeGoal

  datatype Hook =
    | SaveGameData | SerialExchange | LinkMenuWait | LinkMenuDone | SpecialWarp | LeftGameboy | RightGameboy
    | DoBattleOrTrade | SelectMon | PartyMenuInput | ChosePlayerMon | SelectStats | SelectTrade | ChoseTrade
    | TradeCenterTrade | TwoOptionMenu | HandleMenuInput | TradeConfirmed | AddEnemyMon | TryEvolving
    | SaveParty | TradeAgain

  datatype Context =
    | Link | Warp | Dialogue | ExchangeWait | SelectSetup | PartyMenu | SubmenuSetup | Stats | TradeChoice
    | SelectionExchange | ConfirmationSetup | Confirmation | TradeRunning

  datatype Once = LinkA | PartyA | StatsRight | TradeA | ConfirmA

  datatype Kind = Approach | HiddenEvent | Cursor | Talk

  // Unnamed inputs are budgeted per kind and screen.
  datatype Quota = Quota(kind: Kind, context: Option<Context>)

  datatype Button = A | Up | Down | Left | Right

  datatype Fault = PartyUnreadable | CompactionMismatch | IncomingEvolution | FinalTransformed | QuotaExhausted

  datatype RawParty = RawParty(
    count: Byte, species: Bytes, records: seq<Bytes>, otNames: seq<Bytes>, nicknames: seq<Bytes>)

  predicate Holds(items: seq<Bytes>, size: nat) {
    |items| == 6 && forall i :: 0 <= i < 6 ==> |items[i]| == size
  }

  type PartyRam = p: RawParty |
      |p.species| == 7 && Holds(p.records, 44) && Holds(p.otNames, 11) && Holds(p.nicknames, 11)
    witness RawParty(0, seq(7, _ => 0), seq(6, _ => seq(44, _ => 0)), seq(6, _ => seq(11, _ => 0)), seq(6, _ => seq(11, _ => 0)))

  datatype Memory = Memory(
    item: Byte, maxItem: Byte, watchedKeys: Byte, topX: Byte, topY: Byte, whichMenu: Byte, tradingMon: Byte,
    twoOptionMenu: Byte, curMap: Byte, linkState: Byte, serialRole: Byte, x: Byte, y: Byte, facing: Byte,
    joyIgnore: Byte, walkCounter: Byte, statusFlags5: Byte, party: PartyRam)

  ghost function ReadParty(ram: PartyRam): Option<Party> {
    if !(1 <= ram.count <= 6) then None
    else
      var p := Party(ram.count, ram.species[..ram.count + 1], ram.records[..ram.count],
                     ram.otNames[..ram.count], ram.nicknames[..ram.count]);
      if PartyValid(p) then Some(p) else None
  }

  datatype Config = Config(role: Role, version: Version, checkpoint: Checkpoint, slot: int, before: Party)

  ghost function Construct(role: Role, version: Version, checkpoint: Checkpoint, slot: int, ram: PartyRam): Option<Config> {
    match ReadParty(ram)
    case None => None
    case Some(p) =>
      if !(0 <= slot < p.count) || TradeEvolves(p.species[slot]) then None
      else Some(Config(role, version, checkpoint, slot, p))
  }

  ghost predicate Qualified(c: Config) {
    PartyValid(c.before) && 0 <= c.slot < c.before.count && !TradeEvolves(c.before.species[c.slot])
  }

  lemma ConstructQualifies(role: Role, version: Version, checkpoint: Checkpoint, slot: int, ram: PartyRam)
    requires Construct(role, version, checkpoint, slot, ram).Some?
    ensures Qualified(Construct(role, version, checkpoint, slot, ram).value)
  {
  }

  // ---------------------------------------------------------------- state

  datatype Evidence = Evidence(copying: bool, copy: Option<Party>, saved: bool, final: Option<Party>)

  datatype Screen = Screen(context: Option<Context>, poll: Option<Context>, saves: nat, serials: nat)

  datatype Inputs = Inputs(nextInput: int, approachSteps: int, sent: set<Once>, attempts: map<Quota, nat>)

  datatype Owner = Owner(flags: set<Phase>, error: Option<Fault>, screen: Screen, inputs: Inputs, ev: Evidence)

  const FRESH_OWNER: Owner :=
    Owner({PartyQualified}, None, Screen(None, None, 0, 0), Inputs(0, 0, {}, map[]), Evidence(false, None, false, None))

  // --------------------------------------------------------- observations

  // What a hook did: a judgement on the party overrides an older error, an
  // unreadable party does not.
  datatype Seen = Seen(ev: Evidence, error: Option<Fault>, published: set<Phase>)

  function HookContext(h: Hook): Option<Context> {
    match h
    case LinkMenuWait => Some(Link)
    case LinkMenuDone => Some(Warp)
    case SpecialWarp => Some(Warp)
    case LeftGameboy => Some(Dialogue)
    case RightGameboy => Some(Dialogue)
    case DoBattleOrTrade => Some(ExchangeWait)
    case SelectMon => Some(SelectSetup)
    case PartyMenuInput => Some(PartyMenu)
    case ChosePlayerMon => Some(SubmenuSetup)
    case SelectStats => Some(Stats)
    case SelectTrade => Some(TradeChoice)
    case ChoseTrade => Some(SelectionExchange)
    case TradeCenterTrade => Some(ConfirmationSetup)
    case TradeConfirmed => Some(TradeRunning)
    case _ => None
  }

  function EnterScreen(s: Screen, h: Hook, m: Memory): Screen {
    var t := s.(saves := if h == SaveGameData then s.saves + 1 else s.saves,
                serials := if h == SerialExchange then s.serials + 1 else s.serials);
    if HookContext(h).Some? then t.(context := HookContext(h), poll := None)
    else if h == TwoOptionMenu && t.context == Some(ConfirmationSetup) && m.twoOptionMenu == 5 then
      t.(context := Some(Confirmation))
    else if h == HandleMenuInput then t.(poll := t.context)
    else t
  }

  function OldOr(error: Option<Fault>, f: Fault): Option<Fault> {
    if error.Some? then error else Some(f)
  }

  // The received member is copied in; the party is read before any evolution.
  ghost function ObserveCopy(c: Config, ev: Evidence, error: Option<Fault>, m: Memory): Seen
    requires Qualified(c)
  {
    match ReadParty(m.party)
    case None => Seen(ev, OldOr(error, PartyUnreadable), {})
    case Some(p) =>
      var ev' := ev.(copy := Some(p));
      if !SurvivorsKept(c.before, c.slot, p) then Seen(ev', Some(CompactionMismatch), {})
      else if TradeEvolves(p.species[|p.species| - 2]) then Seen(ev', Some(IncomingEvolution), {})
      else Seen(ev', error, {CopyValidated})
  }

  // The save returned and the cycle restarts; the party must not have changed.
  ghost function ObserveFinal(ev: Evidence, error: Option<Fault>, m: Memory): Seen {
    match ReadParty(m.party)
    case None => Seen(ev, OldOr(error, PartyUnreadable), {})
    case Some(p) =>
      var ev' := ev.(final := Some(p));
      if Some(p) != ev.copy then Seen(ev', Some(FinalTransformed), {})
      else Seen(ev', error, if error.None? then {CycleReturned} else {})
  }

  ghost function Observe(c: Config, ev: Evidence, error: Option<Fault>, context: Option<Context>, h: Hook, m: Memory): Seen
    requires Qualified(c)
  {
    match h
    case AddEnemyMon => Seen(if context == Some(TradeRunning) then ev.(copying := true) else ev, error, {})
    case TryEvolving => if ev.copying && ev.copy.None? then ObserveCopy(c, ev, error, m) else Seen(ev, error, {})
    case SaveParty => Seen(if ev.copy.Some? then ev.(saved := true) else ev, error, {})
    case TradeAgain => if ev.saved && ev.final.None? then ObserveFinal(ev, error, m) else Seen(ev, error, {})
    case _ => Seen(ev, error, {})
  }

  function AdoptSeen(s: Owner, seen: Seen, screen: Screen): Owner {
    s.(ev := seen.ev, error := seen.error, flags := s.flags + seen.published, screen := screen)
  }

  // Unlike the battle driver, this one keeps observing after an error.
  ghost function Callback(c: Config, s: Owner, h: Hook, m: Memory): Owner
    requires Qualified(c)
  {
    var screen := EnterScreen(s.screen, h, m);
    AdoptSeen(s, Observe(c, s.ev, s.error, screen.context, h, m), screen)
  }

  // --------------------------------------------------------------- inputs

  type Press = PressOf<Button, Once>

  // A raise without a stored error leaves the driver as it is and stops the owner.
  datatype Decision = Decision(
    published: set<Phase>, inputs: Inputs, press: Option<Press>, fault: Option<Fault>, raised: bool)

  function Quantity(attempts: map<Quota, nat>, q: Quota): nat {
    if q in attempts then attempts[q] else 0
  }

  function KindLimit(k: Kind): nat {
    match k
    case Approach => 3
    case HiddenEvent => 6
    case Cursor => 12
    case Talk => 32
  }

  // The budget an unnamed input is charged to.
  function KindOf(reached: bool, context: Option<Context>, b: Button): Kind {
    if reached && (context.None? || context == Some(Warp)) then HiddenEvent
    else if b == A then Talk
    else if context.None? && !reached then Approach
    else Cursor
  }

  function Hold(i: Inputs): Decision { Decision({}, i, None, None, false) }

  function Announcing(p: Phase, d: Decision): Decision { d.(published := d.published + {p}) }

  // A named input: sent once, outside every budget.
  function SendOnce(i: Inputs, b: Button, duration: int, cadence: int, frame: int, once: Once): Decision {
    if once in i.sent then Hold(i)
    else Decision({}, i.(sent := i.sent + {once}, nextInput := frame + cadence),
                  Some(Press(frame, b, duration, Some(once))), None, false)
  }

  // An unnamed input: charged to its budget, an error once that is spent.
  function Pulse(i: Inputs, q: Quota, b: Button, duration: int, cadence: int, frame: int): Decision {
    if Quantity(i.attempts, q) >= KindLimit(q.kind) then Decision({}, i, None, Some(QuotaExhausted), true)
    else Decision({}, i.(attempts := i.attempts[q := Quantity(i.attempts, q) + 1], nextInput := frame + cadence),
                  Some(Press(frame, b, duration, None)), None, false)
  }

  function AtLinkMenu(c: Config, i: Inputs, frame: int, m: Memory, peer: set<Phase>): Decision {
    var expected := if c.version == Yellow then 3 else 2;
    if m.maxItem as int != expected || m.item as int > expected || !AButtonWatched(m.watchedKeys) then Hold(i)
    else if m.item != 0 then Pulse(i, Quota(Cursor, Some(Link)), Up, 12, 40, frame)
    else if LinkMenuReady !in peer then Announcing(LinkMenuReady, Hold(i))
    else
      var d := Announcing(LinkMenuReady, SendOnce(i, A, 4, 20, frame, LinkA));
      if d.press.Some? then Announcing(LinkMenuApplied, d) else d
  }

  function AtPartyMenu(c: Config, i: Inputs, frame: int, m: Memory, peer: set<Phase>): Decision {
    if m.maxItem as int != c.before.count || m.watchedKeys != 0x91 || m.whichMenu != 0 || m.topX != 1 || m.topY != 1
       || m.item >= m.maxItem then Hold(i)
    else
      Announcing(SelectMonReady,
        if c.checkpoint == SelectMonGoal || SelectMonReady !in peer then Hold(i)
        else if m.item as int != c.slot then
          Pulse(i, Quota(Cursor, Some(PartyMenu)), if m.item as int < c.slot then Down else Up, 2, 4, frame)
        else
          Announcing(OutgoingSlotReady,
            if OutgoingSlotReady in peer then SendOnce(i, A, 4, 20, frame, PartyA) else Hold(i)))
  }

  function AtSubmenu(context: Context, i: Inputs, frame: int, m: Memory): Decision {
    if m.item != 0 || m.maxItem != 0 || m.topY != 16 then Hold(i)
    else if context == Stats && m.watchedKeys == 0x13 && m.topX == 1 then SendOnce(i, Right, 12, 20, frame, StatsRight)
    else if context == TradeChoice && m.watchedKeys == 0x23 && m.topX == 11 then SendOnce(i, A, 4, 20, frame, TradeA)
    else Hold(i)
  }

  function AtConfirmation(c: Config, i: Inputs, frame: int, m: Memory): Decision {
    if m.maxItem != 1 || m.watchedKeys != 3 || m.tradingMon as int != c.slot then Hold(i)
    else if m.item == 1 then Pulse(i, Quota(Cursor, Some(Confirmation)), Up, 2, 4, frame)
    else if m.item == 0 then SendOnce(i, A, 4, 20, frame, ConfirmA)
    else Hold(i)
  }

  function InRoom(context: Option<Context>, i: Inputs, frame: int, m: Memory): Decision {
    if m.curMap != 0xEF || m.linkState != 1 then Hold(i)
    else if m.serialRole != 1 && m.serialRole != 2 then Decision({}, i, None, None, true)
    else
      var (x, facing, turn) := if m.serialRole == 2 then (3, 0x0C, Right) else (6, 0x08, Left);
      if m.joyIgnore != 0 || m.walkCounter != 0 || InputBlocked(m.statusFlags5) || m.x as int != x || m.y != 4 then Hold(i)
      else if m.facing as int != facing then Pulse(i, Quota(HiddenEvent, context), turn, 8, 30, frame)
      else Pulse(i, Quota(HiddenEvent, context), A, 4, 20, frame)
  }

  function OnApproach(s: Screen, i: Inputs, frame: int, reached: bool): Decision {
    if s.saves != 0 || s.serials != 0 then Hold(i)
    else if i.approachSteps < 3 then
      Pulse(i.(approachSteps := i.approachSteps + 1), Quota(KindOf(reached, None, Up), None), Up, 6, 20, frame)
    else Pulse(i, Quota(KindOf(reached, None, A), None), A, 4, 40, frame)
  }

  // The decision by screen; `reached` says the own trade-center flag is up by now.
  function DecideOnScreen(c: Config, s: Screen, i: Inputs, frame: int, m: Memory, peer: set<Phase>, reached: bool): Decision {
    match s.context
    case Some(Link) => AtLinkMenu(c, i, frame, m, peer)
    case Some(PartyMenu) => if s.poll == Some(PartyMenu) then AtPartyMenu(c, i, frame, m, peer) else Hold(i)
    case Some(Stats) => if s.poll == Some(Stats) then AtSubmenu(Stats, i, frame, m) else Hold(i)
    case Some(TradeChoice) => if s.poll == Some(TradeChoice) then AtSubmenu(TradeChoice, i, frame, m) else Hold(i)
    case Some(Confirmation) => if s.poll == Some(Confirmation) then AtConfirmation(c, i, frame, m) else Hold(i)
    case Some(Dialogue) => Pulse(i, Quota(Talk, Some(Dialogue)), A, 4, 20, frame)
    case Some(Warp) => if reached && TradeCenterReached in peer then InRoom(Some(Warp), i, frame, m) else Hold(i)
    case None =>
      if reached && TradeCenterReached in peer then InRoom(None, i, frame, m) else OnApproach(s, i, frame, reached)
    case _ => Hold(i)
  }

  predicate ObjectiveComplete(c: Config, s: Owner) {
    s.error.None? && (if c.checkpoint == SelectMonGoal then SelectMonReady in s.flags else CycleReturned in s.flags)
  }

  function Decide(c: Config, s: Owner, frame: int, m: Memory, peer: set<Phase>): Decision {
    if s.error.Some? then Decision({}, s.inputs, None, None, true)
    else if ObjectiveComplete(c, s) || frame < s.inputs.nextInput || PartyQualified !in peer then Hold(s.inputs)
    else
      var reached := TradeCenterReached in s.flags || m.curMap == 0xEF;
      var d := if CycleReturned in s.flags || s.ev.copy.Some? then Hold(s.inputs)
               else DecideOnScreen(c, s.screen, s.inputs, frame, m, peer, reached);
      if m.curMap == 0xEF then Announcing(TradeCenterReached, d) else d
  }

  function Adopt(s: Owner, d: Decision): Owner {
    s.(flags := s.flags + d.published, inputs := d.inputs, error := if d.fault.Some? then d.fault else s.error)
  }

  // ---------------------------------------------------------- one step

  datatype Event = Observed(hook: Hook, memory: Memory) | Deciding(frame: int, memory: Memory)

  ghost function Step(c: Config, s: Owner, e: Event, peer: set<Phase>): Owner
    requires Qualified(c)
  {
    match e
    case Observed(h, m) => Callback(c, s, h, m)
    case Deciding(frame, m) => Adopt(s, Decide(c, s, frame, m, peer))
  }

  function Pressed(c: Config, s: Owner, e: Event, peer: set<Phase>): Option<Press> {
    if e.Deciding? then Decide(c, s, e.frame, e.memory, peer).press else None
  }
}
