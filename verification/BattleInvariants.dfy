// What every single step of one battle owner keeps, whatever the environment does.
module BattleInvariants {
  import opened Common
  import opened BattleRules
  import opened BattleProtocol
  import opened Interleaving

  // ------------------------------------------------------------- evidence

  predicate LedgerBounded(l: Ledger) {
    |l.action.samples| == l.action.damageDone <= 2
  }

  ghost predicate BaselineSound(c: Config, baseline: Option<Baseline>, sequence: int) {
    baseline.Some? ==>
      var b := baseline.value;
      && 1 <= b.seqNo <= sequence && b.seqNo < MAX_SEQUENCE
      && b.local.slot as int == c.lead && BaselineValid(c.before, b.local)
      && |b.local.moves| == 4 && 0 <= c.chosen.slot < 4
      && b.local.moves[c.chosen.slot] == c.chosen.moveId
  }

  predicate ExchangeSound(c: Config, exchange: Option<Exchange>, sequence: int) {
    exchange.Some? ==>
      1 <= exchange.value.seqNo <= sequence && exchange.value.seqNo < MAX_SEQUENCE
      && exchange.value.send == c.chosen.slot
  }

  ghost predicate TurnSound(
      c: Config, baseline: Option<Baseline>, exchange: Option<Exchange>, turn: Option<Turn>, sequence: int)
  {
    turn.Some? ==>
      var t := turn.value;
      && baseline.Some? && exchange.Some?
      && t.exchangeSeq == exchange.value.seqNo < t.settledSeq <= sequence
      && baseline.value.seqNo < t.settledSeq < MAX_SEQUENCE
      && t.send == c.chosen.slot
      && LocalTurnValid(baseline.value, t)
  }

  predicate EndSound(turn: Option<Turn>, end: Option<EndMark>, returned: Option<int>, sequence: int) {
    && (end.Some? ==> turn.Some? && turn.value.settledSeq < end.value.seqNo <= sequence)
    && (returned.Some? ==> end.Some? && 1 <= returned.value <= sequence)
  }

  // Everything about a frozen room except how its end and return are ordered.
  ghost predicate RoomSound(c: Config, turn: Option<Turn>, room: Option<Room>, sequence: int) {
    room.Some? ==>
      var r := room.value;
      && turn.Some? && turn.value.settledSeq < r.end.seqNo < r.settledSeq
      && 1 <= r.returnSeq < r.settledSeq <= sequence && r.settledSeq <= MAX_SEQUENCE
      && BothRan(r.end) && r.curMap == 240 && r.linkState == 1 && r.inBattle == 0
      && PartyShape(c.before) && HealedValid(c.before, r.healed)
  }

  ghost predicate EvidenceSound(c: Config, ev: Evidence, sequence: int) {
    && LedgerBounded(ev.local) && LedgerBounded(ev.enemy)
    && BaselineSound(c, ev.baseline, sequence)
    && ExchangeSound(c, ev.exchange, sequence)
    && TurnSound(c, ev.baseline, ev.exchange, ev.turn, sequence)
    && EndSound(ev.turn, ev.end, ev.returned, sequence)
    && RoomSound(c, ev.turn, ev.room, sequence)
  }

  // Sequence numbers only grow, so older evidence stays in range.
  lemma EvidenceAges(c: Config, ev: Evidence, sequence: int, later: int)
    requires EvidenceSound(c, ev, sequence) && sequence <= later
    ensures EvidenceSound(c, ev, later)
  {
    hide LocalTurnValid, BaselineValid, HealedValid, PartyShape;
  }

  lemma BaselineKeeps(c: Config, ev: Evidence, seqNo: int, m: Memory)
    requires EvidenceSound(c, ev, seqNo - 1) && 1 <= seqNo < MAX_SEQUENCE && ev.baseline.None?
    ensures EvidenceSound(c, ObserveBaseline(c, ev, seqNo, m).ev, seqNo)
  {
    hide LocalTurnValid, BaselineValid, HealedValid, PartyShape;
    EvidenceAges(c, ev, seqNo - 1, seqNo);
  }

  lemma SettlementKeeps(c: Config, ev: Evidence, seqNo: int, m: Memory)
    requires EvidenceSound(c, ev, seqNo - 1) && 1 <= seqNo < MAX_SEQUENCE
    requires ev.baseline.Some? && ev.exchange.Some? && ev.turn.None?
    ensures EvidenceSound(c, ObserveSettlement(ev, seqNo, m).ev, seqNo)
  {
    hide LocalTurnValid, BaselineValid, HealedValid, PartyShape, SideSettled;
    EvidenceAges(c, ev, seqNo - 1, seqNo);
  }

  lemma ExchangeKeeps(c: Config, ev: Evidence, seqNo: int, ready: bool, m: Memory)
    requires EvidenceSound(c, ev, seqNo - 1) && 1 <= seqNo < MAX_SEQUENCE
    ensures EvidenceSound(c, ObserveExchange(c, ev, seqNo, ready, m).ev, seqNo)
  {
    hide LocalTurnValid, BaselineValid, HealedValid, PartyShape, ExchangedEffect;
    EvidenceAges(c, ev, seqNo - 1, seqNo);
  }

  lemma DuringTurnKeeps(c: Config, ev: Evidence, seqNo: int, h: Hook, m: Memory)
    requires EvidenceSound(c, ev, seqNo - 1) && 1 <= seqNo
    ensures EvidenceSound(c, ObserveDuringTurn(ev, h, m).ev, seqNo)
  {
    hide LocalTurnValid, BaselineValid, HealedValid, PartyShape;
    EvidenceAges(c, ev, seqNo - 1, seqNo);
  }

  lemma EndKeeps(c: Config, ev: Evidence, seqNo: int, ran: bool, m: Memory)
    requires EvidenceSound(c, ev, seqNo - 1) && 1 <= seqNo
    ensures EvidenceSound(c, ObserveEnd(ev, seqNo, ran, m).ev, seqNo)
    ensures EvidenceSound(c, ObserveReturn(ev, seqNo).ev, seqNo)
  {
    hide LocalTurnValid, BaselineValid, HealedValid, PartyShape;
    EvidenceAges(c, ev, seqNo - 1, seqNo);
  }

  lemma ObserveKeeps(
      c: Config, ev: Evidence, seqNo: int, h: Hook, m: Memory, flags: set<Phase>, sent: set<Once>)
    requires EvidenceSound(c, ev, seqNo - 1) && 1 <= seqNo < MAX_SEQUENCE
    ensures EvidenceSound(c, Observe(c, ev, seqNo, h, m, flags, sent).ev, seqNo)
  {
    hide EvidenceSound, ObserveBaseline, ObserveSettlement, ObserveExchange, ObserveDuringTurn, ObserveEnd, ObserveReturn;
    EvidenceAges(c, ev, seqNo - 1, seqNo);
    match h
    case MainInBattleLoop =>
      if ev.baseline.None? {
        BaselineKeeps(c, ev, seqNo, m);
      } else if ev.exchange.Some? && ev.turn.None? {
        SettlementKeeps(c, ev, seqNo, m);
      }
    case PostExchange => ExchangeKeeps(c, ev, seqNo, PartyCancelled in flags && MoveA in sent, m);
    case EndOfBattle => EndKeeps(c, ev, seqNo, RunA in sent, m);
    case ReturnToRoom => EndKeeps(c, ev, seqNo, false, m);
    case _ => DuringTurnKeeps(c, ev, seqNo, h, m);
  }

  // Evidence is written once: whatever is frozen stays as it is.
  ghost predicate Frozen(ev: Evidence, later: Evidence) {
    && (ev.baseline.Some? ==> later.baseline == ev.baseline)
    && (ev.exchange.Some? ==> later.exchange == ev.exchange)
    && (ev.turn.Some? ==> later.turn == ev.turn && later.local == ev.local && later.enemy == ev.enemy)
    && (ev.room.Some? ==> later.room == ev.room)
    && (ev.end.Some? ==> later.end.Some?)
    && (ev.returned.Some? ==> later.returned.Some?)
  }

  // --------------------------------------------------------- the whole owner

  // Flags are published exactly with the evidence they announce, and each
  // rendezvous flag needs the input that leads to it.
  ghost predicate FlagsMatch(flags: set<Phase>, sent: set<Once>, ev: Evidence) {
    && PartyQualified in flags
    && (ev.baseline.Some? <==> BattleMenuReady in flags)
    && (ev.turn.Some? <==> SettledTurn in flags)
    && (ev.room.Some? <==> RoomReturned in flags)
    && (PartyInspected in flags ==> InspectA in sent)
    && (PartyCancelled in flags ==> PartyInspected in flags && PartyB in sent)
    && (ev.exchange.Some? ==> PartyCancelled in flags && MoveA in sent)
    && (ev.end.Some? ==> RunA in sent)
  }

  // An error is the only way the end marker can hold anything but a mutual run.
  ghost predicate OwnerSound(c: Config, s: Owner) {
    && 0 <= s.sequence
    && EvidenceSound(c, s.ev, s.sequence)
    && FlagsMatch(s.flags, s.inputs.sent, s.ev)
    && (s.error.None? ==>
        && s.sequence <= MAX_SEQUENCE
        && (s.ev.room.None? ==> s.sequence < MAX_SEQUENCE)
        && (s.ev.end.Some? ==> BothRan(s.ev.end.value)))
  }

  lemma FreshOwnerSound(c: Config)
    ensures OwnerSound(c, FRESH_OWNER)
  {
  }

  // What one observation may do to the evidence, the flags and the end marker.
  ghost predicate SeenSound(ev: Evidence, seen: Seen, flags: set<Phase>, sent: set<Once>) {
    && Frozen(ev, seen.ev)
    && FlagsMatch(flags + seen.published, sent, seen.ev)
    && seen.ev.room == ev.room
    && (seen.fault.None? && (ev.end.Some? ==> BothRan(ev.end.value)) && seen.ev.end.Some? ==> BothRan(seen.ev.end.value))
  }

  lemma MainLoopSound(c: Config, ev: Evidence, seqNo: int, m: Memory, flags: set<Phase>, sent: set<Once>)
    requires FlagsMatch(flags, sent, ev)
    ensures SeenSound(ev, ObserveMainLoop(c, ev, seqNo, m), flags, sent)
  {
    hide LocalTurnValid, BaselineValid, AssembleTurn, BothRan;
  }

  lemma ExchangeSeen(c: Config, ev: Evidence, seqNo: int, m: Memory, flags: set<Phase>, sent: set<Once>)
    requires FlagsMatch(flags, sent, ev)
    ensures SeenSound(ev, ObserveExchange(c, ev, seqNo, PartyCancelled in flags && MoveA in sent, m), flags, sent)
  {
    hide ExchangedEffect, BothRan;
  }

  lemma DuringTurnSeen(ev: Evidence, h: Hook, m: Memory, flags: set<Phase>, sent: set<Once>)
    requires FlagsMatch(flags, sent, ev)
    ensures SeenSound(ev, ObserveDuringTurn(ev, h, m), flags, sent)
  {
    hide BothRan, CloseDamage, OpenDamage, Paralyse, MarkDone, MarkExecuted;
  }

  lemma EndSeen(ev: Evidence, seqNo: int, m: Memory, flags: set<Phase>, sent: set<Once>)
    requires FlagsMatch(flags, sent, ev)
    ensures SeenSound(ev, ObserveEnd(ev, seqNo, RunA in sent, m), flags, sent)
    ensures SeenSound(ev, ObserveReturn(ev, seqNo), flags, sent)
  {
  }

  // Hooks that publish without touching the evidence, or do nothing at all.
  lemma PartyHooksSeen(ev: Evidence, f: Fault, flags: set<Phase>, sent: set<Once>)
    requires FlagsMatch(flags, sent, ev)
    ensures SeenSound(ev, Noted(ev), flags, sent) && SeenSound(ev, Refuse(ev, f), flags, sent)
    ensures InspectA in sent ==> SeenSound(ev, Seen(ev, None, {PartyInspected}), flags, sent)
    ensures PartyInspected in flags && PartyB in sent ==> SeenSound(ev, Seen(ev, None, {PartyCancelled}), flags, sent)
  {
    hide BothRan;
  }

  lemma ObserveSeen(
      c: Config, ev: Evidence, seqNo: int, h: Hook, m: Memory, flags: set<Phase>, sent: set<Once>)
    requires FlagsMatch(flags, sent, ev)
    ensures SeenSound(ev, Observe(c, ev, seqNo, h, m, flags, sent), flags, sent)
  {
    hide SeenSound, FlagsMatch, ObserveMainLoop, ObserveExchange, ObserveDuringTurn, ObserveEnd, ObserveReturn, Noted, Refuse;
    PartyHooksSeen(ev, UnexpectedPartyBoundary, flags, sent);
    PartyHooksSeen(ev, FaintBoundary, flags, sent);
    MainLoopSound(c, ev, seqNo, m, flags, sent);
    ExchangeSeen(c, ev, seqNo, m, flags, sent);
    DuringTurnSeen(ev, h, m, flags, sent);
    EndSeen(ev, seqNo, m, flags, sent);
  }

  lemma AdoptSeenKeeps(c: Config, s: Owner, seen: Seen, screen: Screen)
    requires OwnerSound(c, s) && s.error.None? && s.sequence + 1 < MAX_SEQUENCE
    requires EvidenceSound(c, seen.ev, s.sequence + 1)
    requires SeenSound(s.ev, seen, s.flags, s.inputs.sent)
    ensures OwnerSound(c, AdoptSeen(s, seen, screen))
  {
    hide EvidenceSound, FlagsMatch, Frozen;
  }

  lemma CallbackKeeps(c: Config, s: Owner, h: Hook, m: Memory)
    requires OwnerSound(c, s)
    ensures OwnerSound(c, Callback(c, s, h, m))
  {
    hide Observe, EvidenceSound, FlagsMatch, EnterScreen;
    if s.closed || s.error.Some? {
    } else if s.sequence + 1 >= MAX_SEQUENCE {
      EvidenceAges(c, s.ev, s.sequence, s.sequence + 1);
    } else {
      SeenKeeps(c, s, h, m, EnterScreen(s.screen, h, InspectA in s.inputs.sent));
    }
  }

  lemma SeenKeeps(c: Config, s: Owner, h: Hook, m: Memory, screen: Screen)
    requires OwnerSound(c, s) && s.error.None? && s.sequence + 1 < MAX_SEQUENCE
    ensures OwnerSound(c, AdoptSeen(s, Observe(c, s.ev, s.sequence + 1, h, m, s.flags, s.inputs.sent), screen))
  {
    hide Observe, EvidenceSound, FlagsMatch, SeenSound;
    ObserveKeeps(c, s.ev, s.sequence + 1, h, m, s.flags, s.inputs.sent);
    ObserveSeen(c, s.ev, s.sequence + 1, h, m, s.flags, s.inputs.sent);
    AdoptSeenKeeps(c, s, Observe(c, s.ev, s.sequence + 1, h, m, s.flags, s.inputs.sent), screen);
  }

  // ------------------------------------------------------------ decisions

  // The phases an input decision may announce.
  predicate ScreenPhase(p: Phase) { p == LinkMenuReady || p == ColosseumReached || p == MoveReady }

  // What both owners must have published before a confirming input is sent.
  predicate NeedsMet(o: Once, flags: set<Phase>, peer: set<Phase>) {
    match o
    case LinkA => LinkMenuReady in flags && LinkMenuReady in peer
    case FightA => PartyCancelled in flags && PartyCancelled in peer
    case MoveA => MoveReady in flags && MoveReady in peer
    case RunA => SettledTurn in flags && SettledTurn in peer
    case _ => true
  }

  // A decision announces screens only, and adds at most one one-shot name whose
  // rendezvous is complete.
  ghost predicate Lawful(i: Inputs, d: Decision, flags: set<Phase>, peer: set<Phase>) {
    && (forall p :: p in d.published ==> ScreenPhase(p))
    && (forall o :: o in i.sent ==> o in d.inputs.sent)
    && (forall o :: o in d.inputs.sent && o !in i.sent ==> NeedsMet(o, flags + d.published, peer))
  }

  lemma PulseLawful(i: Inputs, q: Quota, b: Button, frame: int, once: Option<Once>, flags: set<Phase>, peer: set<Phase>)
    requires once.Some? ==> NeedsMet(once.value, flags, peer)
    ensures Lawful(i, Pulse(i, q, b, frame, once), flags, peer)
    ensures Pulse(i, q, b, frame, once).published == {}
  {
  }

  lemma AnnouncingLawful(i: Inputs, p: Phase, d: Decision, flags: set<Phase>, peer: set<Phase>)
    requires ScreenPhase(p) && Lawful(i, d, flags + {p}, peer)
    ensures Lawful(i, Announcing(p, d), flags, peer)
  {
    assert flags + {p} + d.published == flags + Announcing(p, d).published;
  }

  lemma LinkMenuLawful(c: Config, i: Inputs, frame: int, m: Memory, flags: set<Phase>, peer: set<Phase>)
    ensures Lawful(i, AtLinkMenu(c, i, frame, m, peer), flags, peer)
  {
    PulseLawful(i, InContext(Link), Up, frame, None, flags, peer);
    PulseLawful(i, InContext(Link), Down, frame, None, flags, peer);
    var d := if LinkMenuReady in peer then Pulse(i, InContext(Link), A, frame, Some(LinkA)) else Hold(i);
    if LinkMenuReady in peer {
      PulseLawful(i, InContext(Link), A, frame, Some(LinkA), flags + {LinkMenuReady}, peer);
    }
    AnnouncingLawful(i, LinkMenuReady, d, flags, peer);
  }

  lemma MoveMenuLawful(c: Config, i: Inputs, frame: int, m: Memory, flags: set<Phase>, peer: set<Phase>)
    ensures Lawful(i, AtMoveMenu(c, i, frame, m, peer), flags, peer)
  {
    PulseLawful(i, InContext(MoveMenu), Up, frame, None, flags, peer);
    PulseLawful(i, InContext(MoveMenu), Down, frame, None, flags, peer);
    var d := if MoveReady in peer then Pulse(i, InContext(MoveMenu), A, frame, Some(MoveA)) else Hold(i);
    if MoveReady in peer {
      PulseLawful(i, InContext(MoveMenu), A, frame, Some(MoveA), flags + {MoveReady}, peer);
    }
    AnnouncingLawful(i, MoveReady, d, flags, peer);
  }

  lemma BattleMenuLawful(i: Inputs, frame: int, m: Memory, settled: bool, flags: set<Phase>, peer: set<Phase>)
    requires settled ==> SettledTurn in flags
    ensures Lawful(i, AtBattleMenu(i, frame, m, MenuTarget(settled, flags, peer)), flags, peer)
  {
    var goal := MenuTarget(settled, flags, peer);
    if goal.Some? {
      var (target, once) := goal.value;
      forall b: Button { PulseLawful(i, InContext(Battle), b, frame, None, flags, peer); }
      PulseLawful(i, InContext(Battle), A, frame, Some(once), flags, peer);
    }
  }

  lemma RoomLawful(i: Inputs, frame: int, m: Memory, flags: set<Phase>, peer: set<Phase>)
    ensures Lawful(i, InRoom(i, frame, m, peer), flags, peer)
  {
    forall b: Button { PulseLawful(i, HiddenEvent, b, frame, None, flags, peer); }
  }

  lemma ScreenLawful(c: Config, s: Owner, frame: int, m: Memory, flags: set<Phase>, peer: set<Phase>, reached: bool)
    requires s.ev.turn.Some? ==> SettledTurn in s.flags
    requires s.flags <= flags
    ensures Lawful(s.inputs, DecideOnScreen(c, s, frame, m, peer, reached), flags, peer)
  {
    var i := s.inputs;
    match s.screen.context
    case Some(Link) => LinkMenuLawful(c, i, frame, m, flags, peer);
    case Some(PartyMenu) => PulseLawful(i, InContext(PartyMenu), B, frame, Some(PartyB), flags, peer);
    case Some(Battle) =>
      BattleMenuLawful(i, frame, m, s.ev.turn.Some?, s.flags, peer);
      LawfulGrows(i, DecideOnScreen(c, s, frame, m, peer, reached), s.flags, flags, peer);
    case Some(MoveMenu) => MoveMenuLawful(c, i, frame, m, flags, peer);
    case Some(Dialogue) => PulseLawful(i, InContext(Dialogue), A, frame, None, flags, peer);
    case Some(Warp) => RoomLawful(i, frame, m, flags, peer);
    case None =>
      RoomLawful(i, frame, m, flags, peer);
      PulseLawful(i.(approachSteps := i.approachSteps + 1), Approach, Up, frame, None, flags, peer);
      PulseLawful(i, Approach, A, frame, None, flags, peer);
    case _ =>
  }

  lemma LawfulGrows(i: Inputs, d: Decision, flags: set<Phase>, more: set<Phase>, peer: set<Phase>)
    requires Lawful(i, d, flags, peer) && flags <= more
    ensures Lawful(i, d, more, peer)
  {
  }

  lemma DecideLawful(c: Config, s: Owner, frame: int, m: Memory, peer: set<Phase>)
    requires s.ev.turn.Some? ==> SettledTurn in s.flags
    ensures Lawful(s.inputs, Decide(c, s, frame, m, peer), s.flags, peer)
  {
    ScreenLawful(c, s, frame, m, s.flags + {ColosseumReached}, peer, true);
    ScreenLawful(c, s, frame, m, s.flags, peer, ColosseumReached in s.flags);
    AnnouncingLawful(s.inputs, ColosseumReached, DecideOnScreen(c, s, frame, m, peer, true), s.flags, peer);
  }

  lemma DecisionLawful(c: Config, s: Owner, frame: int, m: Memory, peer: set<Phase>)
    requires OwnerSound(c, s)
    ensures Lawful(s.inputs, Decide(c, s, frame, m, peer), s.flags, peer)
  {
    hide EvidenceSound, Decide, Lawful;
    DecideLawful(c, s, frame, m, peer);
  }

  lemma CloseKeeps(c: Config, s: Owner, cleanupFails: bool)
    requires OwnerSound(c, s)
    ensures OwnerSound(c, Close(s, cleanupFails))
  {
    hide EvidenceSound, FlagsMatch;
  }

  lemma AdoptKeeps(c: Config, s: Owner, d: Decision, peer: set<Phase>)
    requires OwnerSound(c, s) && Lawful(s.inputs, d, s.flags, peer)
    ensures OwnerSound(c, Adopt(s, d))
  {
    hide EvidenceSound;
  }

  lemma AfterStepKeeps(c: Config, s: Owner, m: Memory)
    requires OwnerSound(c, s)
    ensures OwnerSound(c, AfterStep(c, s, m))
  {
    hide LocalTurnValid, BaselineValid, HealedValid, PartyShape, ReadParty, PartyLead;
    EvidenceAges(c, s.ev, s.sequence, s.sequence + 1);
  }

  // The invariant of one owner, over every event and every peer.
  lemma StepKeepsOwnerSound(c: Config, s: Owner, e: Event, peer: set<Phase>)
    requires OwnerSound(c, s)
    ensures OwnerSound(c, Step(c, s, e, peer))
  {
    hide OwnerSound, Callback, Decide, AfterStep;
    match e
    case Observed(h, m) => CallbackKeeps(c, s, h, m);
    case Deciding(frame, m) =>
      DecisionLawful(c, s, frame, m, peer);
      AdoptKeeps(c, s, Decide(c, s, frame, m, peer), peer);
    case Ticked(m) => AfterStepKeeps(c, s, m);
    case Closing(f) => CloseKeeps(c, s, f);
  }

  // How one step may change an owner: evidence freezes, flags and one-shot names
  // only grow, and a failed owner never changes again except by being closed.
  ghost predicate OnlyAdvances(s: Owner, t: Owner) {
    && Frozen(s.ev, t.ev)
    && s.flags <= t.flags && s.inputs.sent <= t.inputs.sent && s.sequence <= t.sequence
    && (s.error.Some? ==> t == s.(closed := t.closed))
  }

  lemma AdoptSeenAdvances(s: Owner, seen: Seen, screen: Screen)
    requires s.error.None? && SeenSound(s.ev, seen, s.flags, s.inputs.sent)
    ensures OnlyAdvances(s, AdoptSeen(s, seen, screen))
  {
    hide Frozen, FlagsMatch;
  }

  lemma EvidenceKept(ev: Evidence)
    ensures Frozen(ev, ev)
  {
  }

  lemma CallbackAdvances(c: Config, s: Owner, h: Hook, m: Memory)
    requires FlagsMatch(s.flags, s.inputs.sent, s.ev)
    ensures OnlyAdvances(s, Callback(c, s, h, m))
  {
    hide Observe, EnterScreen, Frozen, FlagsMatch, SeenSound;
    EvidenceKept(s.ev);
    if !s.closed && s.error.None? && s.sequence + 1 < MAX_SEQUENCE {
      ObserveSeen(c, s.ev, s.sequence + 1, h, m, s.flags, s.inputs.sent);
      AdoptSeenAdvances(s, Observe(c, s.ev, s.sequence + 1, h, m, s.flags, s.inputs.sent),
                        EnterScreen(s.screen, h, InspectA in s.inputs.sent));
    }
  }

  lemma HeldOnceStopped(c: Config, s: Owner, frame: int, m: Memory, peer: set<Phase>)
    ensures s.error.Some? || s.closed ==> Decide(c, s, frame, m, peer) == Hold(s.inputs)
  {
    hide DecideOnScreen;
  }

  lemma StepOnlyAdvances(c: Config, s: Owner, e: Event, peer: set<Phase>)
    requires OwnerSound(c, s)
    ensures OnlyAdvances(s, Step(c, s, e, peer))
  {
    hide Callback, Decide, EvidenceSound, HealedValid, ReadParty;
    match e
    case Observed(h, m) =>
      CallbackAdvances(c, s, h, m);
    case Deciding(frame, m) =>
      DecisionLawful(c, s, frame, m, peer);
      HeldOnceStopped(c, s, frame, m, peer);
    case Ticked(m) =>
    case Closing(f) =>
  }

  // ------------------------------------------------------------ rendezvous

  // Every confirming input sent so far had its rendezvous: own flags and the
  // peer's are both up, so nothing is confirmed before the other side is there.
  ghost predicate Rendezvous(sent: set<Once>, flags: set<Phase>, peer: set<Phase>) {
    forall o :: o in sent ==> NeedsMet(o, flags, peer)
  }

  lemma StepKeepsRendezvous(c: Config, s: Owner, e: Event, peer: set<Phase>)
    requires OwnerSound(c, s) && Rendezvous(s.inputs.sent, s.flags, peer)
    ensures Rendezvous(Step(c, s, e, peer).inputs.sent, Step(c, s, e, peer).flags, peer)
  {
    hide Callback, Decide, AfterStep, EvidenceSound, Frozen;
    StepOnlyAdvances(c, s, e, peer);
    if e.Deciding? {
      DecisionLawful(c, s, e.frame, e.memory, peer);
    } else {
      OnlyDecisionsSend(c, s, e, peer);
    }
  }

  lemma OnlyDecisionsSend(c: Config, s: Owner, e: Event, peer: set<Phase>)
    requires !e.Deciding?
    ensures Step(c, s, e, peer).inputs == s.inputs
  {
    hide Observe, EnterScreen, ReadParty, HealedValid, PartyShape;
  }

  // ---------------------------------------------------------------- inputs

  function TotalUsed(a: map<Quota, nat>): nat {
    Quantity(a, Approach) + Quantity(a, HiddenEvent) + Quantity(a, InContext(Dialogue)) + Quantity(a, InContext(Link))
    + Quantity(a, InContext(PartyMenu)) + Quantity(a, InContext(Battle)) + Quantity(a, InContext(MoveMenu))
  }

  // The inputs emitted so far, against the driver's own bookkeeping.
  ghost predicate InputsSound(i: Inputs, log: seq<Press>) {
    && |log| == TotalUsed(i.attempts)
    && QuotasKept(i.attempts)
    && SentOnce(log, i.sent)
    && HoldsDisjoint(log, i.nextInput)
  }

  ghost predicate QuotasKept(a: map<Quota, nat>) {
    forall q :: Quantity(a, q) <= QuotaLimit(q)
  }

  // An owner never sends more than 150 inputs.
  lemma InputTotalBounded(i: Inputs, log: seq<Press>)
    requires InputsSound(i, log)
    ensures |log| <= 150
  {
    assert forall q :: Quantity(i.attempts, q) <= QuotaLimit(q);
  }

  predicate Spendable(q: Quota) {
    q == Approach || q == HiddenEvent
    || (q.InContext? && q.context in {Link, PartyMenu, Battle, MoveMenu, Dialogue})
  }

  lemma SpendKeepsQuotas(a: map<Quota, nat>, q: Quota)
    requires Spendable(q) && Quantity(a, q) < QuotaLimit(q)
    requires QuotasKept(a)
    ensures var b := a[q := Quantity(a, q) + 1];
      TotalUsed(b) == TotalUsed(a) + 1 && QuotasKept(b)
  {
    hide QuotaLimit;
    SpendOne(a, q);
  }

  // Spending one quota changes that quota only.
  lemma SpendOne(a: map<Quota, nat>, q: Quota)
    ensures forall p :: Quantity(a[q := Quantity(a, q) + 1], p) == Quantity(a, p) + (if p == q then 1 else 0)
  {
  }

  lemma PulseKeepsInputs(i: Inputs, q: Quota, b: Button, frame: int, once: Option<Once>, log: seq<Press>)
    requires InputsSound(i, log) && i.nextInput <= frame && Spendable(q)
    ensures var d := Pulse(i, q, b, frame, once); InputsSound(d.inputs, Extend(log, d.press))
  {
    hide TotalUsed, QuotasKept, SentOnce, HoldsDisjoint, QuotaLimit, Quantity, Spendable;
    var d := Pulse(i, q, b, frame, once);
    if d.press.Some? {
      SpendKeepsQuotas(i.attempts, q);
      HoldsExtend(log, i.nextInput, d.press.value, d.inputs.nextInput);
      SentOnceExtends(log, i.sent, d.press.value);
    }
  }

  lemma ScreenKeepsInputs(c: Config, s: Owner, frame: int, m: Memory, peer: set<Phase>, reached: bool, log: seq<Press>)
    requires InputsSound(s.inputs, log) && s.inputs.nextInput <= frame
    ensures var d := DecideOnScreen(c, s, frame, m, peer, reached); InputsSound(d.inputs, Extend(log, d.press))
  {
    hide InputsSound, Pulse, Quantity, QuotaLimit;
    var i := s.inputs;
    match s.screen.context
    case Some(Link) => EveryPulseKeepsInputs(i, InContext(Link), frame, log);
    case Some(PartyMenu) => EveryPulseKeepsInputs(i, InContext(PartyMenu), frame, log);
    case Some(Battle) => EveryPulseKeepsInputs(i, InContext(Battle), frame, log);
    case Some(MoveMenu) => EveryPulseKeepsInputs(i, InContext(MoveMenu), frame, log);
    case Some(Dialogue) => EveryPulseKeepsInputs(i, InContext(Dialogue), frame, log);
    case Some(Warp) => EveryPulseKeepsInputs(i, HiddenEvent, frame, log);
    case None =>
      EveryPulseKeepsInputs(i, HiddenEvent, frame, log);
      EveryPulseKeepsInputs(i, Approach, frame, log);
      StepsDoNotCount(i, log);
      EveryPulseKeepsInputs(i.(approachSteps := i.approachSteps + 1), Approach, frame, log);
    case _ =>
  }

  lemma StepsDoNotCount(i: Inputs, log: seq<Press>)
    requires InputsSound(i, log)
    ensures InputsSound(i.(approachSteps := i.approachSteps + 1), log)
  {
  }

  // Whatever a screen does with at most one pulse of its quota, the bookkeeping holds.
  ghost predicate PulsesSound(i: Inputs, q: Quota, frame: int, log: seq<Press>) {
    forall b, once :: var d := Pulse(i, q, b, frame, once); InputsSound(d.inputs, Extend(log, d.press))
  }

  lemma EveryPulseKeepsInputs(i: Inputs, q: Quota, frame: int, log: seq<Press>)
    requires InputsSound(i, log) && i.nextInput <= frame && Spendable(q)
    ensures PulsesSound(i, q, frame, log)
  {
    hide InputsSound, Pulse;
    forall b, once ensures var d := Pulse(i, q, b, frame, once); InputsSound(d.inputs, Extend(log, d.press)) {
      PulseKeepsInputs(i, q, b, frame, once, log);
    }
  }

  // The bookkeeping follows the inputs actually emitted, on every step.
  lemma StepKeepsInputs(c: Config, s: Owner, e: Event, peer: set<Phase>, log: seq<Press>)
    requires InputsSound(s.inputs, log)
    ensures InputsSound(Step(c, s, e, peer).inputs, Extend(log, Pressed(c, s, e, peer)))
  {
    hide InputsSound, DecideOnScreen, Observe, ReadParty, HealedValid, PartyShape;
    if e.Deciding? && s.inputs.nextInput <= e.frame {
      ScreenKeepsInputs(c, s, e.frame, e.memory, peer, true, log);
      ScreenKeepsInputs(c, s, e.frame, e.memory, peer, ColosseumReached in s.flags, log);
    }
  }
}
