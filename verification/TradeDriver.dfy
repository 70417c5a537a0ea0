// The trade owner driver in its own, imperative form, proved to follow the
// transition system of TradeProtocol (scripts/_timed_trade_probe.py, TradeOwnerDriver).
module TradeDriver {
  import opened Common
  import opened TradeRules
  import opened TradeProtocol
  import opened Interleaving
  import opened ReadinessBoard

  function PhaseIndex(p: Phase): nat {
    match p
    case PartyQualified => 0
    case LinkMenuReady => 1
    case LinkMenuApplied => 2
    case TradeCenterReached => 3
    case SelectMonReady => 4
    case OutgoingSlotReady => 5
    case CopyValidated => 6
    case CycleReturned => 7
  }

  const PHASES: nat := 8

  method LoadParty(ram: PartyRam) returns (party: Option<Party>)
    ensures party == ReadParty(ram)
  {
    if !(1 <= ram.count <= 6) {
      return None;
    }
    var p := Party(ram.count, ram.species[..ram.count + 1], ram.records[..ram.count],
                   ram.otNames[..ram.count], ram.nicknames[..ram.count]);
    var ok := ValidateParty(p);
    return if ok then Some(p) else None;
  }

  method Qualify(role: Role, version: Version, checkpoint: Checkpoint, slot: int, ram: PartyRam)
    returns (config: Option<Config>)
    ensures config == Construct(role, version, checkpoint, slot, ram)
    ensures config.Some? ==> Qualified(config.value)
  {
    var party := LoadParty(ram);
    if party.None? || !(0 <= slot < party.value.count) || TradeEvolves(party.value.species[slot]) {
      return None;
    }
    ConstructQualifies(role, version, checkpoint, slot, ram);
    return Some(Config(role, version, checkpoint, slot, party.value));
  }

  class TradeOwnerDriver {
    const config: Config
    const peer: PeerReadiness

    var flags: set<Phase>
    var error: Option<Fault>
    var context: Option<Context>
    var poll: Option<Context>
    var saves: nat
    var serials: nat
    var nextInput: int
    var approachSteps: int
    var sent: set<Once>
    var attempts: map<Quota, nat>
    var copying: bool
    var copy: Option<Party>
    var saved: bool
    var final: Option<Party>

    ghost function Evidences(): Evidence
      reads this`copying, this`copy, this`saved, this`final
    {
      Evidence(copying, copy, saved, final)
    }

    ghost function ScreenNow(): Screen
      reads this`context, this`poll, this`saves, this`serials
    {
      Screen(context, poll, saves, serials)
    }

    ghost function Bookkeeping(): Inputs
      reads this`nextInput, this`approachSteps, this`sent, this`attempts
    {
      Inputs(nextInput, approachSteps, sent, attempts)
    }

    ghost function State(): Owner
      reads this
    {
      Owner(flags, error, ScreenNow(), Bookkeeping(), Evidences())
    }

    // What the peer has published so far.
    ghost function PeerFlags(): set<Phase>
      requires peer.Valid() && peer.phases == PHASES
      reads peer.raw
    {
      set p: Phase | peer.PeerUp(PhaseIndex(p))
    }

    // The own half of the board says exactly what the flags say.
    ghost predicate FlagsShared()
      requires peer.Valid() && peer.phases == PHASES
      reads this`flags, peer.raw
    {
      forall p: Phase :: p in flags <==> peer.OwnUp(PhaseIndex(p))
    }

    ghost predicate Valid()
      reads this`flags, peer.raw
    {
      peer.Valid() && peer.phases == PHASES && Qualified(config) && FlagsShared()
    }

    constructor (config: Config, peer: PeerReadiness)
      requires Qualified(config) && peer.Valid() && peer.phases == PHASES
      requires forall p: Phase :: !peer.OwnUp(PhaseIndex(p))
      modifies peer.raw
      ensures Valid() && this.config == config && this.peer == peer
      ensures State() == FRESH_OWNER && PeerFlags() == old(set p: Phase | peer.PeerUp(PhaseIndex(p)))
    {
      this.config := config;
      this.peer := peer;
      flags, error, context, poll, saves, serials := {}, None, None, None, 0, 0;
      nextInput, approachSteps, sent, attempts := 0, 0, {}, map[];
      copying, copy, saved, final := false, None, false, None;
      new;
      Publish(PartyQualified);
    }

    method Publish(p: Phase)
      requires Valid()
      modifies this`flags, peer.raw
      ensures Valid() && flags == old(flags) + {p} && PeerFlags() == old(PeerFlags())
    {
      if p !in flags {
        flags := flags + {p};
        peer.PublishReady(PhaseIndex(p));
      }
    }

    method PeerReady(p: Phase) returns (ready: bool)
      requires Valid()
      ensures ready <==> p in PeerFlags()
    {
      ready := peer.PeerReady(PhaseIndex(p));
    }

    // ------------------------------------------------------- observations

    method CheckSurvivors(p: Party) returns (ok: bool)
      requires Qualified(config) && PartyValid(p)
      ensures ok <==> SurvivorsKept(config.before, config.slot, p)
    {
      var slot, count := config.slot, config.before.count;
      ok := p.count == count;
      ok := ok && p.records[..|p.records| - 1] == config.before.records[..slot] + config.before.records[slot + 1..];
      ok := ok && p.otNames[..|p.otNames| - 1] == config.before.otNames[..slot] + config.before.otNames[slot + 1..];
      ok := ok && p.nicknames[..|p.nicknames| - 1] == config.before.nicknames[..slot] + config.before.nicknames[slot + 1..];
    }

    method JudgeCopy(m: Memory)
      requires Valid()
      modifies this`copy, this`error, this`flags, peer.raw
      ensures Valid() && PeerFlags() == old(PeerFlags())
      ensures var seen := ObserveCopy(config, old(Evidences()), old(error), m);
        Evidences() == seen.ev && error == seen.error && flags == old(flags) + seen.published
    {
      hide PeerFlags, FlagsShared, Qualified, ReadParty, PartyValid, SurvivorsKept;
      var party := LoadParty(m.party);
      if party.None? {
        if error.None? {
          error := Some(PartyUnreadable);
        }
        return;
      }
      copy := party;
      ReadPartyShape(m.party);
      var valid := CheckSurvivors(party.value);
      if !valid {
        error := Some(CompactionMismatch);
      } else if TradeEvolves(party.value.species[|party.value.species| - 2]) {
        error := Some(IncomingEvolution);
      } else {
        Publish(CopyValidated);
      }
    }

    method JudgeFinal(m: Memory)
      requires Valid()
      modifies this`final, this`error, this`flags, peer.raw
      ensures Valid() && PeerFlags() == old(PeerFlags())
      ensures var seen := ObserveFinal(old(Evidences()), old(error), m);
        Evidences() == seen.ev && error == seen.error && flags == old(flags) + seen.published
    {
      hide PeerFlags, FlagsShared, Qualified, ReadParty;
      var party := LoadParty(m.party);
      if party.None? {
        if error.None? {
          error := Some(PartyUnreadable);
        }
        return;
      }
      final := party;
      if final != copy {
        error := Some(FinalTransformed);
      } else if error.None? {
        Publish(CycleReturned);
      }
    }

    method EnterHook(h: Hook, m: Memory)
      modifies this`saves, this`serials, this`context, this`poll
      ensures ScreenNow() == EnterScreen(old(ScreenNow()), h, m)
    {
      if h == SaveGameData {
        saves := saves + 1;
      }
      if h == SerialExchange {
        serials := serials + 1;
      }
      if HookContext(h).Some? {
        context, poll := HookContext(h), None;
      }
      if h == TwoOptionMenu && context == Some(ConfirmationSetup) && m.twoOptionMenu == 5 {
        context := Some(Confirmation);
      }
      if h == HandleMenuInput {
        poll := context;
      }
    }

    lemma EvidenceFields()
      ensures Evidences().copying == copying && Evidences().copy == copy
      ensures Evidences().saved == saved && Evidences().final == final
      ensures ScreenNow().context == context && Evidences() == Evidence(copying, copy, saved, final)
    {
    }

    method Observe(h: Hook, m: Memory)
      requires Valid()
      modifies this`copying, this`copy, this`saved, this`final, this`error, this`flags, peer.raw
      ensures Valid() && PeerFlags() == old(PeerFlags())
      ensures var seen := TradeProtocol.Observe(config, old(Evidences()), old(error), context, h, m);
        Evidences() == seen.ev && error == seen.error && flags == old(flags) + seen.published
    {
      hide PeerFlags, FlagsShared, Qualified, ObserveCopy, ObserveFinal;
      if h == AddEnemyMon && context == Some(TradeRunning) {
        copying := true;
      }
      if h == TryEvolving && copying && copy.None? {
        JudgeCopy(m);
      }
      if h == SaveParty && copy.Some? {
        saved := true;
      }
      if h == TradeAgain && saved && final.None? {
        JudgeFinal(m);
      }
    }

    // A hook callback; unreadable memory never overwrites an older error.
    method Callback(h: Hook, m: Memory)
      requires Valid()
      modifies this`copying, this`copy, this`saved, this`final, this`error, this`flags,
               this`saves, this`serials, this`context, this`poll, peer.raw
      ensures Valid() && PeerFlags() == old(PeerFlags())
      ensures State() == TradeProtocol.Callback(config, old(State()), h, m)
    {
      hide PeerFlags, FlagsShared, Qualified, Evidences, ScreenNow, Bookkeeping, EnterScreen, TradeProtocol.Observe;
      EnterHook(h, m);
      EvidenceFields();
      Observe(h, m);
    }

    // ------------------------------------------------------------- inputs

    method SendOnce(b: Button, duration: int, cadence: int, frame: int, once: Once) returns (press: Option<Press>)
      modifies this`sent, this`nextInput
      ensures var d := TradeProtocol.SendOnce(old(Bookkeeping()), b, duration, cadence, frame, once);
        Bookkeeping() == d.inputs && press == d.press && d.fault.None? && d.published == {}
    {
      if once in sent {
        return None;
      }
      sent := sent + {once};
      nextInput := frame + cadence;
      return Some(Press(frame, b, duration, Some(once)));
    }

    method Pulse(q: Quota, b: Button, duration: int, cadence: int, frame: int) returns (press: Option<Press>)
      requires error.None?
      modifies this`attempts, this`nextInput, this`error
      ensures var d := TradeProtocol.Pulse(old(Bookkeeping()), q, b, duration, cadence, frame);
        Bookkeeping() == d.inputs && error == d.fault && press == d.press && d.published == {}
    {
      var count := if q in attempts then attempts[q] else 0;
      if count >= KindLimit(q.kind) {
        error := Some(QuotaExhausted);
        return None;
      }
      attempts := attempts[q := count + 1];
      nextInput := frame + cadence;
      return Some(Press(frame, b, duration, None));
    }

    method LinkMenuInput(frame: int, m: Memory) returns (press: Option<Press>)
      requires Valid() && error.None?
      modifies this`flags, this`attempts, this`sent, this`nextInput, this`error, peer.raw
      ensures Valid() && PeerFlags() == old(PeerFlags())
      ensures var d := AtLinkMenu(config, old(Bookkeeping()), frame, m, old(PeerFlags()));
        Bookkeeping() == d.inputs && error == d.fault && flags == old(flags) + d.published && press == d.press
    {
      hide PeerFlags, FlagsShared, Qualified, TradeProtocol.Pulse, TradeProtocol.SendOnce;
      press := None;
      var expected := if config.version == Yellow then 3 else 2;
      if m.maxItem as int != expected || m.item as int > expected || !AButtonWatched(m.watchedKeys) {
        return;
      }
      if m.item != 0 {
        press := Pulse(Quota(Cursor, Some(Link)), Up, 12, 40, frame);
        return;
      }
      Publish(LinkMenuReady);
      var ready := PeerReady(LinkMenuReady);
      if ready {
        press := SendOnce(A, 4, 20, frame, LinkA);
        if press.Some? {
          Publish(LinkMenuApplied);
        }
      }
    }

    method PartyMenuInput(frame: int, m: Memory) returns (press: Option<Press>)
      requires Valid() && error.None?
      modifies this`flags, this`attempts, this`sent, this`nextInput, this`error, peer.raw
      ensures Valid() && PeerFlags() == old(PeerFlags())
      ensures var d := AtPartyMenu(config, old(Bookkeeping()), frame, m, old(PeerFlags()));
        Bookkeeping() == d.inputs && error == d.fault && flags == old(flags) + d.published && press == d.press
    {
      hide PeerFlags, FlagsShared, Qualified, TradeProtocol.Pulse, TradeProtocol.SendOnce;
      press := None;
      if m.maxItem as int != config.before.count || m.watchedKeys != 0x91 || m.whichMenu != 0 || m.topX != 1 || m.topY != 1 {
        return;
      }
      if m.item >= m.maxItem {
        return;
      }
      Publish(SelectMonReady);
      if config.checkpoint == SelectMonGoal {
        return;
      }
      var selecting := PeerReady(SelectMonReady);
      if !selecting {
        return;
      }
      if m.item as int != config.slot {
        press := Pulse(Quota(Cursor, Some(PartyMenu)), if m.item as int < config.slot then Down else Up, 2, 4, frame);
        return;
      }
      Publish(OutgoingSlotReady);
      var outgoing := PeerReady(OutgoingSlotReady);
      if outgoing {
        press := SendOnce(A, 4, 20, frame, PartyA);
      }
    }

    method SubmenuInput(screen: Context, frame: int, m: Memory) returns (press: Option<Press>)
      modifies this`sent, this`nextInput
      ensures var d := AtSubmenu(screen, old(Bookkeeping()), frame, m);
        Bookkeeping() == d.inputs && press == d.press && d.fault.None? && d.published == {}
    {
      press := None;
      if m.item != 0 || m.maxItem != 0 || m.topY != 16 {
        return;
      }
      if screen == Stats && m.watchedKeys == 0x13 && m.topX == 1 {
        press := SendOnce(Right, 12, 20, frame, StatsRight);
      } else if screen == TradeChoice && m.watchedKeys == 0x23 && m.topX == 11 {
        press := SendOnce(A, 4, 20, frame, TradeA);
      }
    }

    method ConfirmationInput(frame: int, m: Memory) returns (press: Option<Press>)
      requires error.None?
      modifies this`attempts, this`sent, this`nextInput, this`error
      ensures var d := AtConfirmation(config, old(Bookkeeping()), frame, m);
        Bookkeeping() == d.inputs && error == d.fault && press == d.press && d.published == {}
    {
      press := None;
      if m.maxItem == 1 && m.watchedKeys == 3 && m.tradingMon as int == config.slot {
        if m.item == 1 {
          press := Pulse(Quota(Cursor, Some(Confirmation)), Up, 2, 4, frame);
        } else if m.item == 0 {
          press := SendOnce(A, 4, 20, frame, ConfirmA);
        }
      }
    }

    // An unsupported serial role raises past the driver: nothing is stored.
    method RoomInput(screen: Option<Context>, frame: int, m: Memory) returns (press: Option<Press>)
      requires error.None?
      modifies this`attempts, this`nextInput, this`error
      ensures var d := InRoom(screen, old(Bookkeeping()), frame, m);
        Bookkeeping() == d.inputs && error == d.fault && press == d.press && d.published == {}
    {
      press := None;
      if m.curMap != 0xEF || m.linkState != 1 || (m.serialRole != 1 && m.serialRole != 2) {
        return;
      }
      var x, facing, direction := 6, 0x08, Left;
      if m.serialRole == 2 {
        x, facing, direction := 3, 0x0C, Right;
      }
      if m.joyIgnore != 0 || m.walkCounter != 0 || InputBlocked(m.statusFlags5) || m.x as int != x || m.y != 4 {
        return;
      }
      if m.facing as int != facing {
        press := Pulse(Quota(HiddenEvent, screen), direction, 8, 30, frame);
      } else {
        press := Pulse(Quota(HiddenEvent, screen), A, 4, 20, frame);
      }
    }

    method ApproachInput(frame: int, reached: bool) returns (press: Option<Press>)
      requires error.None?
      modifies this`attempts, this`nextInput, this`approachSteps, this`error
      ensures var d := OnApproach(ScreenNow(), old(Bookkeeping()), frame, reached);
        Bookkeeping() == d.inputs && error == d.fault && press == d.press && d.published == {}
    {
      press := None;
      if saves != 0 || serials != 0 {
        return;
      }
      if approachSteps < 3 {
        approachSteps := approachSteps + 1;
        press := Pulse(Quota(KindOf(reached, None, Up), None), Up, 6, 20, frame);
      } else {
        press := Pulse(Quota(KindOf(reached, None, A), None), A, 4, 40, frame);
      }
    }

    method ScreenInput(frame: int, m: Memory) returns (press: Option<Press>)
      requires Valid() && error.None?
      modifies this`flags, this`attempts, this`sent, this`nextInput, this`approachSteps, this`error, peer.raw
      ensures Valid() && PeerFlags() == old(PeerFlags())
      ensures
        var d := DecideOnScreen(config, ScreenNow(), old(Bookkeeping()), frame, m, old(PeerFlags()), TradeCenterReached in old(flags));
        Bookkeeping() == d.inputs && error == d.fault && flags == old(flags) + d.published && press == d.press
    {
      hide PeerFlags, FlagsShared, Qualified, Bookkeeping, AtLinkMenu, AtPartyMenu, AtSubmenu, AtConfirmation, InRoom,
           OnApproach, TradeProtocol.Pulse, TradeProtocol.SendOnce;
      press := None;
      var center := PeerReady(TradeCenterReached);
      if context == Some(Link) {
        press := LinkMenuInput(frame, m);
      } else if context == Some(PartyMenu) && poll == context {
        press := PartyMenuInput(frame, m);
      } else if (context == Some(Stats) || context == Some(TradeChoice)) && poll == context {
        press := SubmenuInput(context.value, frame, m);
      } else if context == Some(Confirmation) && poll == context {
        press := ConfirmationInput(frame, m);
      } else if context == Some(Dialogue) {
        press := Pulse(Quota(Talk, Some(Dialogue)), A, 4, 20, frame);
      } else if TradeCenterReached in flags && center {
        if context == None || context == Some(Warp) {
          press := RoomInput(context, frame, m);
        }
      } else if context == None {
        press := ApproachInput(frame, TradeCenterReached in flags);
      }
    }

    // The input decision of one frame, reading the peer's half of the board.
    method BeforeStep(frame: int, m: Memory) returns (press: Option<Press>)
      requires Valid()
      modifies this`flags, this`attempts, this`sent, this`nextInput, this`approachSteps, this`error, peer.raw
      ensures Valid() && PeerFlags() == old(PeerFlags())
      ensures var d := Decide(config, old(State()), frame, m, old(PeerFlags()));
        State() == Adopt(old(State()), d) && press == d.press
    {
      hide PeerFlags, FlagsShared, Qualified, Evidences, ScreenNow, DecideOnScreen;
      EvidenceFields();
      press := None;
      if error.Some? {
        return;
      }
      if (if config.checkpoint == SelectMonGoal then SelectMonReady in flags else CycleReturned in flags)
         || frame < nextInput {
        return;
      }
      var qualified := PeerReady(PartyQualified);
      if !qualified {
        return;
      }
      if m.curMap == 0xEF {
        Publish(TradeCenterReached);
      }
      if CycleReturned in flags || copy.Some? {
        return;
      }
      press := ScreenInput(frame, m);
    }
  }

  lemma ReadPartyShape(ram: PartyRam)
    requires ReadParty(ram).Some?
    ensures PartyValid(ReadParty(ram).value) && |ReadParty(ram).value.species| >= 2
  {
  }
}
