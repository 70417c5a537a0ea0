// Two trade owners in any interleaving, what every run keeps, and the parent that
// compares their reports (scripts/_timed_trade_probe.py).
module TradePair {
  import opened Common
  import opened TradeRules
  import opened TradeProtocol
  import opened Interleaving

  // ------------------------------------------------------------- evidence

  ghost predicate EvidenceSound(c: Config, ev: Evidence)
    requires Qualified(c)
  {
    && (ev.copy.Some? ==> PartyValid(ev.copy.value))
    && (ev.final.Some? ==> PartyValid(ev.final.value) && ev.saved)
    && (ev.saved ==> ev.copy.Some?)
  }

  // The copy was judged good: survivors in place and nothing about to evolve.
  ghost predicate CopyGood(c: Config, ev: Evidence)
    requires Qualified(c)
  {
    && ev.copy.Some? && PartyValid(ev.copy.value)
    && SurvivorsKept(c.before, c.slot, ev.copy.value)
    && !TradeEvolves(ev.copy.value.species[ev.copy.value.count - 1])
  }

  ghost predicate FlagsSound(c: Config, ev: Evidence, error: Option<Fault>, flags: set<Phase>)
    requires Qualified(c)
  {
    && PartyQualified in flags
    && (CopyValidated in flags ==> CopyGood(c, ev))
    && (error.None? && ev.copy.Some? ==> CopyValidated in flags)
    && (error.None? && ev.final.Some? ==> CycleReturned in flags)
    && (CycleReturned in flags ==> CopyValidated in flags && ev.final.Some? && ev.final == ev.copy)
  }

  // Once written, the copied and final parties never change.
  predicate Frozen(ev: Evidence, later: Evidence) {
    && (ev.copy.Some? ==> later.copy == ev.copy)
    && (ev.final.Some? ==> later.final == ev.final)
    && (ev.copying ==> later.copying) && (ev.saved ==> later.saved)
  }

  ghost predicate SeenSound(c: Config, ev: Evidence, error: Option<Fault>, flags: set<Phase>, seen: Seen)
    requires Qualified(c)
  {
    && EvidenceSound(c, seen.ev) && FlagsSound(c, seen.ev, seen.error, flags + seen.published)
    && Frozen(ev, seen.ev) && (error.Some? ==> seen.error.Some?)
  }

  lemma CopySeen(c: Config, ev: Evidence, error: Option<Fault>, m: Memory, flags: set<Phase>)
    requires Qualified(c) && EvidenceSound(c, ev) && FlagsSound(c, ev, error, flags) && ev.copy.None?
    ensures SeenSound(c, ev, error, flags, ObserveCopy(c, ev, error, m))
  {
    hide PartyValid, SurvivorsKept;
    ReadPartyValid(m.party);
  }

  lemma ReadPartyValid(ram: PartyRam)
    ensures ReadParty(ram).Some? ==>
      PartyValid(ReadParty(ram).value) && |ReadParty(ram).value.species| == ReadParty(ram).value.count + 1
  {
  }

  lemma FinalSeen(c: Config, ev: Evidence, error: Option<Fault>, m: Memory, flags: set<Phase>)
    requires Qualified(c) && EvidenceSound(c, ev) && FlagsSound(c, ev, error, flags) && ev.saved && ev.final.None?
    ensures SeenSound(c, ev, error, flags, ObserveFinal(ev, error, m))
  {
    hide PartyValid, SurvivorsKept, TradeEvolves;
    ReadPartyValid(m.party);
  }

  lemma ObserveSeen(
      c: Config, ev: Evidence, error: Option<Fault>, context: Option<Context>, h: Hook, m: Memory, flags: set<Phase>)
    requires Qualified(c) && EvidenceSound(c, ev) && FlagsSound(c, ev, error, flags)
    ensures SeenSound(c, ev, error, flags, Observe(c, ev, error, context, h, m))
  {
    hide PartyValid, SurvivorsKept, ObserveCopy, ObserveFinal, TradeEvolves;
    if h == TryEvolving && ev.copying && ev.copy.None? {
      CopySeen(c, ev, error, m, flags);
    } else if h == TradeAgain && ev.saved && ev.final.None? {
      FinalSeen(c, ev, error, m, flags);
    }
  }

  // ------------------------------------------------------------ decisions

  // What both owners must have published before a named input is sent.
  predicate NeedsMet(o: Once, flags: set<Phase>, peer: set<Phase>) {
    match o
    case LinkA => LinkMenuReady in flags && LinkMenuReady in peer && LinkMenuApplied in flags
    case PartyA =>
      SelectMonReady in flags && SelectMonReady in peer && OutgoingSlotReady in flags && OutgoingSlotReady in peer
    case _ => true
  }

  // A decision never announces party evidence, meets the needs of whatever it
  // sends, and announces the applied link menu only together with sending it.
  ghost predicate Lawful(i: Inputs, d: Decision, flags: set<Phase>, peer: set<Phase>) {
    && CopyValidated !in d.published && CycleReturned !in d.published && PartyQualified !in d.published
    && (forall o :: o in i.sent ==> o in d.inputs.sent)
    && (forall o :: o in d.inputs.sent && o !in i.sent ==> NeedsMet(o, flags + d.published, peer))
    && (LinkMenuApplied in d.published ==> LinkA in d.inputs.sent)
  }

  lemma PulseLawful(i: Inputs, q: Quota, b: Button, duration: int, cadence: int, frame: int, flags: set<Phase>, peer: set<Phase>)
    ensures Lawful(i, Pulse(i, q, b, duration, cadence, frame), flags, peer)
  {
  }

  lemma SendOnceLawful(i: Inputs, b: Button, duration: int, cadence: int, frame: int, o: Once, flags: set<Phase>, peer: set<Phase>)
    requires NeedsMet(o, flags, peer)
    ensures Lawful(i, SendOnce(i, b, duration, cadence, frame, o), flags, peer)
  {
  }

  lemma AnnouncingLawful(i: Inputs, p: Phase, d: Decision, flags: set<Phase>, peer: set<Phase>)
    requires p == LinkMenuReady || p == TradeCenterReached || p == SelectMonReady || p == OutgoingSlotReady
    requires Lawful(i, d, flags + {p}, peer)
    ensures Lawful(i, Announcing(p, d), flags, peer)
  {
    assert flags + {p} + d.published == flags + Announcing(p, d).published;
  }

  lemma LinkMenuLawful(c: Config, i: Inputs, frame: int, m: Memory, flags: set<Phase>, peer: set<Phase>)
    ensures Lawful(i, AtLinkMenu(c, i, frame, m, peer), flags, peer)
  {
    PulseLawful(i, Quota(Cursor, Some(Link)), Up, 12, 40, frame, flags, peer);
  }

  lemma PartyMenuLawful(c: Config, i: Inputs, frame: int, m: Memory, flags: set<Phase>, peer: set<Phase>)
    ensures Lawful(i, AtPartyMenu(c, i, frame, m, peer), flags, peer)
  {
    var f1, f2 := flags + {SelectMonReady}, flags + {SelectMonReady} + {OutgoingSlotReady};
    var q := Quota(Cursor, Some(PartyMenu));
    PulseLawful(i, q, Up, 2, 4, frame, f1, peer);
    PulseLawful(i, q, Down, 2, 4, frame, f1, peer);
    if SelectMonReady in peer && OutgoingSlotReady in peer {
      SendOnceLawful(i, A, 4, 20, frame, PartyA, f2, peer);
      AnnouncingLawful(i, OutgoingSlotReady, SendOnce(i, A, 4, 20, frame, PartyA), f1, peer);
      AnnouncingLawful(i, SelectMonReady, Announcing(OutgoingSlotReady, SendOnce(i, A, 4, 20, frame, PartyA)), flags, peer);
    }
    AnnouncingLawful(i, OutgoingSlotReady, Hold(i), f1, peer);
    AnnouncingLawful(i, SelectMonReady, Announcing(OutgoingSlotReady, Hold(i)), flags, peer);
    AnnouncingLawful(i, SelectMonReady, Hold(i), flags, peer);
    AnnouncingLawful(i, SelectMonReady, Pulse(i, q, Up, 2, 4, frame), flags, peer);
    AnnouncingLawful(i, SelectMonReady, Pulse(i, q, Down, 2, 4, frame), flags, peer);
  }

  lemma ScreenLawful(
      c: Config, s: Screen, i: Inputs, frame: int, m: Memory, flags: set<Phase>, peer: set<Phase>, reached: bool)
    ensures Lawful(i, DecideOnScreen(c, s, i, frame, m, peer, reached), flags, peer)
  {
    hide Lawful, Pulse, SendOnce, AtLinkMenu, AtPartyMenu, NeedsMet;
    HoldLawful(i, flags, peer);
    match s.context
    case Some(Link) => LinkMenuLawful(c, i, frame, m, flags, peer);
    case Some(PartyMenu) => PartyMenuLawful(c, i, frame, m, flags, peer);
    case Some(Stats) => FreeSendsLawful(i, frame, flags, peer);
    case Some(TradeChoice) => FreeSendsLawful(i, frame, flags, peer);
    case Some(Confirmation) =>
      FreeSendsLawful(i, frame, flags, peer);
      PulseLawful(i, Quota(Cursor, Some(Confirmation)), Up, 2, 4, frame, flags, peer);
    case Some(Dialogue) => PulseLawful(i, Quota(Talk, Some(Dialogue)), A, 4, 20, frame, flags, peer);
    case Some(Warp) => RoomLawful(Some(Warp), i, frame, m, flags, peer);
    case None =>
      RoomLawful(None, i, frame, m, flags, peer);
      ApproachLawful(s, i, frame, reached, flags, peer);
    case _ =>
  }

  lemma HoldLawful(i: Inputs, flags: set<Phase>, peer: set<Phase>)
    ensures Lawful(i, Hold(i), flags, peer)
  {
  }

  lemma FreeSendsLawful(i: Inputs, frame: int, flags: set<Phase>, peer: set<Phase>)
    ensures Lawful(i, SendOnce(i, Right, 12, 20, frame, StatsRight), flags, peer)
    ensures Lawful(i, SendOnce(i, A, 4, 20, frame, TradeA), flags, peer)
    ensures Lawful(i, SendOnce(i, A, 4, 20, frame, ConfirmA), flags, peer)
  {
  }

  lemma RoomLawful(context: Option<Context>, i: Inputs, frame: int, m: Memory, flags: set<Phase>, peer: set<Phase>)
    ensures Lawful(i, InRoom(context, i, frame, m), flags, peer)
  {
    var q := Quota(HiddenEvent, context);
    PulseLawful(i, q, Right, 8, 30, frame, flags, peer);
    PulseLawful(i, q, Left, 8, 30, frame, flags, peer);
    PulseLawful(i, q, A, 4, 20, frame, flags, peer);
  }

  lemma ApproachLawful(s: Screen, i: Inputs, frame: int, reached: bool, flags: set<Phase>, peer: set<Phase>)
    ensures Lawful(i, OnApproach(s, i, frame, reached), flags, peer)
  {
  }

  lemma DecideLawful(c: Config, s: Owner, frame: int, m: Memory, peer: set<Phase>)
    ensures Lawful(s.inputs, Decide(c, s, frame, m, peer), s.flags, peer)
    ensures Decide(c, s, frame, m, peer).press.Some? ==> s.ev.copy.None?
    ensures s.error.Some? ==> Decide(c, s, frame, m, peer).inputs == s.inputs && Decide(c, s, frame, m, peer).published == {}
  {
    hide DecideOnScreen;
    var reached := TradeCenterReached in s.flags || m.curMap == 0xEF;
    var more := s.flags + {TradeCenterReached};
    ScreenLawful(c, s.screen, s.inputs, frame, m, s.flags, peer, reached);
    ScreenLawful(c, s.screen, s.inputs, frame, m, more, peer, reached);
    AnnouncingLawful(s.inputs, TradeCenterReached, DecideOnScreen(c, s.screen, s.inputs, frame, m, peer, reached), s.flags, peer);
    AnnouncingLawful(s.inputs, TradeCenterReached, Hold(s.inputs), s.flags, peer);
  }

  // --------------------------------------------------------- the whole owner

  // Sending a named input and announcing it go together.
  ghost predicate OwnerSound(c: Config, s: Owner, peer: set<Phase>)
    requires Qualified(c)
  {
    && EvidenceSound(c, s.ev)
    && FlagsSound(c, s.ev, s.error, s.flags)
    && (LinkMenuApplied in s.flags ==> LinkA in s.inputs.sent)
    && (forall o :: o in s.inputs.sent ==> NeedsMet(o, s.flags, peer))
  }

  lemma FreshOwnerSound(c: Config, peer: set<Phase>)
    requires Qualified(c)
    ensures OwnerSound(c, FRESH_OWNER, peer)
  {
  }

  ghost predicate OnlyAdvances(s: Owner, t: Owner) {
    Frozen(s.ev, t.ev) && s.flags <= t.flags && s.inputs.sent <= t.inputs.sent && (s.error.Some? ==> t.error.Some?)
  }

  lemma AdoptSeenKeeps(c: Config, s: Owner, seen: Seen, screen: Screen, peer: set<Phase>)
    requires Qualified(c) && OwnerSound(c, s, peer)
    requires SeenSound(c, s.ev, s.error, s.flags, seen) && LinkMenuApplied !in seen.published
    ensures OwnerSound(c, AdoptSeen(s, seen, screen), peer) && OnlyAdvances(s, AdoptSeen(s, seen, screen))
  {
    hide EvidenceSound, FlagsSound, Frozen;
  }

  lemma ObservationsAnnounceParties(c: Config, ev: Evidence, error: Option<Fault>, context: Option<Context>, h: Hook, m: Memory)
    requires Qualified(c)
    ensures LinkMenuApplied !in Observe(c, ev, error, context, h, m).published
  {
    hide PartyValid, SurvivorsKept, ReadParty;
  }

  lemma AdoptKeeps(c: Config, s: Owner, d: Decision, peer: set<Phase>)
    requires Qualified(c) && OwnerSound(c, s, peer) && Lawful(s.inputs, d, s.flags, peer)
    requires s.error.Some? ==> d.fault.None?
    ensures OwnerSound(c, Adopt(s, d), peer) && OnlyAdvances(s, Adopt(s, d))
  {
    hide EvidenceSound, CopyGood;
  }

  lemma StepKeeps(c: Config, s: Owner, e: Event, peer: set<Phase>)
    requires Qualified(c) && OwnerSound(c, s, peer)
    ensures OwnerSound(c, Step(c, s, e, peer), peer) && OnlyAdvances(s, Step(c, s, e, peer))
    ensures s.ev.copy.Some? ==> Pressed(c, s, e, peer).None?
  {
    hide EvidenceSound, FlagsSound, SeenSound, Lawful, Observe, DecideOnScreen, Frozen, EnterScreen, OwnerSound, Qualified, Adopt, AdoptSeen, OnlyAdvances;
    match e
    case Observed(h, m) =>
      var screen := EnterScreen(s.screen, h, m);
      SoundParts(c, s, peer);
      ObserveSeen(c, s.ev, s.error, screen.context, h, m, s.flags);
      ObservationsAnnounceParties(c, s.ev, s.error, screen.context, h, m);
      AdoptSeenKeeps(c, s, Observe(c, s.ev, s.error, screen.context, h, m), screen, peer);
    case Deciding(frame, m) =>
      DecideLawful(c, s, frame, m, peer);
      AdoptKeeps(c, s, Decide(c, s, frame, m, peer), peer);
  }

  lemma SoundParts(c: Config, s: Owner, peer: set<Phase>)
    requires Qualified(c) && OwnerSound(c, s, peer)
    ensures EvidenceSound(c, s.ev) && FlagsSound(c, s.ev, s.error, s.flags)
  {
  }

  lemma PeerMayGrow(c: Config, s: Owner, peer: set<Phase>, more: set<Phase>)
    requires Qualified(c) && OwnerSound(c, s, peer) && peer <= more
    ensures OwnerSound(c, s, more)
  {
  }

  // ---------------------------------------------------------------- inputs

  // The budgets any screen can charge, and what all of them together allow.
  function TotalCharged(a: map<Quota, nat>): nat {
    Quantity(a, Quota(Cursor, Some(Link))) + Quantity(a, Quota(Cursor, Some(PartyMenu)))
    + Quantity(a, Quota(Cursor, Some(Confirmation))) + Quantity(a, Quota(Talk, Some(Dialogue)))
    + Quantity(a, Quota(HiddenEvent, None)) + Quantity(a, Quota(HiddenEvent, Some(Warp)))
    + Quantity(a, Quota(Approach, None)) + Quantity(a, Quota(Talk, None))
  }

  predicate Chargeable(q: Quota) {
    || (q.kind == Cursor && q.context in {Some(Link), Some(PartyMenu), Some(Confirmation)})
    || (q.kind == Talk && q.context in {None, Some(Dialogue)})
    || (q.kind == HiddenEvent && q.context in {None, Some(Warp)})
    || (q.kind == Approach && q.context.None?)
  }

  function Flag(b: bool): nat { if b then 1 else 0 }

  function TotalNamed(sent: set<Once>): nat {
    Flag(LinkA in sent) + Flag(PartyA in sent) + Flag(StatsRight in sent) + Flag(TradeA in sent) + Flag(ConfirmA in sent)
  }

  ghost predicate QuotasKept(a: map<Quota, nat>) {
    forall q :: Quantity(a, q) <= KindLimit(q.kind)
  }

  ghost predicate InputsSound(i: Inputs, log: seq<Press>) {
    && |log| == TotalCharged(i.attempts) + TotalNamed(i.sent)
    && QuotasKept(i.attempts) && SentOnce(log, i.sent) && HoldsDisjoint(log, i.nextInput)
  }

  // Three cursor budgets of 12, two dialogue budgets of 32, two hidden-event
  // budgets of 6, one approach budget of 3 and five named inputs.
  lemma InputTotalBounded(i: Inputs, log: seq<Press>)
    requires InputsSound(i, log)
    ensures |log| <= 120
  {
    assert forall q :: Quantity(i.attempts, q) <= KindLimit(q.kind);
  }

  lemma ChargeKeepsQuotas(a: map<Quota, nat>, q: Quota)
    requires Chargeable(q) && Quantity(a, q) < KindLimit(q.kind) && QuotasKept(a)
    ensures var b := a[q := Quantity(a, q) + 1]; TotalCharged(b) == TotalCharged(a) + 1 && QuotasKept(b)
  {
    hide KindLimit;
    ChargeOne(a, q);
  }

  // Charging one budget changes that budget only.
  lemma ChargeOne(a: map<Quota, nat>, q: Quota)
    ensures forall p :: Quantity(a[q := Quantity(a, q) + 1], p) == Quantity(a, p) + (if p == q then 1 else 0)
  {
  }

  lemma NamedGrows(sent: set<Once>, o: Once)
    requires o !in sent
    ensures TotalNamed(sent + {o}) == TotalNamed(sent) + 1
  {
  }

  lemma PulseKeepsInputs(i: Inputs, q: Quota, b: Button, duration: int, cadence: int, frame: int, log: seq<Press>)
    requires InputsSound(i, log) && i.nextInput <= frame && Chargeable(q) && 0 < duration <= cadence
    ensures var d := Pulse(i, q, b, duration, cadence, frame); InputsSound(d.inputs, Extend(log, d.press))
  {
    hide TotalCharged, TotalNamed, QuotasKept, SentOnce, HoldsDisjoint, KindLimit, Quantity, Chargeable;
    var d := Pulse(i, q, b, duration, cadence, frame);
    if d.press.Some? {
      ChargeKeepsQuotas(i.attempts, q);
      HoldsExtend(log, i.nextInput, d.press.value, d.inputs.nextInput);
      SentOnceExtends(log, i.sent, d.press.value);
    }
  }

  lemma SendKeepsInputs(i: Inputs, b: Button, duration: int, cadence: int, frame: int, o: Once, log: seq<Press>)
    requires InputsSound(i, log) && i.nextInput <= frame && 0 < duration <= cadence
    ensures var d := SendOnce(i, b, duration, cadence, frame, o); InputsSound(d.inputs, Extend(log, d.press))
  {
    hide TotalCharged, TotalNamed, QuotasKept, SentOnce, HoldsDisjoint;
    var d := SendOnce(i, b, duration, cadence, frame, o);
    if d.press.Some? {
      NamedGrows(i.sent, o);
      HoldsExtend(log, i.nextInput, d.press.value, d.inputs.nextInput);
      SentOnceExtends(log, i.sent, d.press.value);
    }
  }

  lemma ScreenKeepsInputs(
      c: Config, s: Screen, i: Inputs, frame: int, m: Memory, peer: set<Phase>, reached: bool, log: seq<Press>)
    requires InputsSound(i, log) && i.nextInput <= frame
    ensures var d := DecideOnScreen(c, s, i, frame, m, peer, reached); InputsSound(d.inputs, Extend(log, d.press))
  {
    hide InputsSound, Pulse, SendOnce, KindLimit;
    match s.context
    case Some(Link) =>
      PulseKeepsInputs(i, Quota(Cursor, Some(Link)), Up, 12, 40, frame, log);
      SendKeepsInputs(i, A, 4, 20, frame, LinkA, log);
    case Some(PartyMenu) =>
      PulseKeepsInputs(i, Quota(Cursor, Some(PartyMenu)), Up, 2, 4, frame, log);
      PulseKeepsInputs(i, Quota(Cursor, Some(PartyMenu)), Down, 2, 4, frame, log);
      SendKeepsInputs(i, A, 4, 20, frame, PartyA, log);
    case Some(Stats) => SendKeepsInputs(i, Right, 12, 20, frame, StatsRight, log);
    case Some(TradeChoice) => SendKeepsInputs(i, A, 4, 20, frame, TradeA, log);
    case Some(Confirmation) =>
      PulseKeepsInputs(i, Quota(Cursor, Some(Confirmation)), Up, 2, 4, frame, log);
      SendKeepsInputs(i, A, 4, 20, frame, ConfirmA, log);
    case Some(Dialogue) => PulseKeepsInputs(i, Quota(Talk, Some(Dialogue)), A, 4, 20, frame, log);
    case Some(Warp) => RoomKeepsInputs(Some(Warp), i, frame, m, log);
    case None =>
      RoomKeepsInputs(None, i, frame, m, log);
      ApproachKeepsInputs(s, i, frame, reached, log);
    case _ =>
  }

  lemma RoomKeepsInputs(context: Option<Context>, i: Inputs, frame: int, m: Memory, log: seq<Press>)
    requires InputsSound(i, log) && i.nextInput <= frame && context in {None, Some(Warp)}
    ensures var d := InRoom(context, i, frame, m); InputsSound(d.inputs, Extend(log, d.press))
  {
    hide InputsSound, Pulse;
    var q := Quota(HiddenEvent, context);
    PulseKeepsInputs(i, q, Right, 8, 30, frame, log);
    PulseKeepsInputs(i, q, Left, 8, 30, frame, log);
    PulseKeepsInputs(i, q, A, 4, 20, frame, log);
  }

  lemma ApproachKeepsInputs(s: Screen, i: Inputs, frame: int, reached: bool, log: seq<Press>)
    requires InputsSound(i, log) && i.nextInput <= frame
    ensures var d := OnApproach(s, i, frame, reached); InputsSound(d.inputs, Extend(log, d.press))
  {
    hide Pulse, TotalCharged, TotalNamed, QuotasKept, SentOnce, HoldsDisjoint;
    var j := i.(approachSteps := i.approachSteps + 1);
    PulseKeepsInputs(j, Quota(KindOf(reached, None, Up), None), Up, 6, 20, frame, log);
    PulseKeepsInputs(i, Quota(KindOf(reached, None, A), None), A, 4, 40, frame, log);
  }

  lemma StepKeepsInputs(c: Config, s: Owner, e: Event, peer: set<Phase>, log: seq<Press>)
    requires Qualified(c) && InputsSound(s.inputs, log)
    ensures InputsSound(Step(c, s, e, peer).inputs, Extend(log, Pressed(c, s, e, peer)))
  {
    hide InputsSound, DecideOnScreen, Observe, EnterScreen, Qualified;
    if e.Deciding? && s.inputs.nextInput <= e.frame {
      var reached := TradeCenterReached in s.flags || e.memory.curMap == 0xEF;
      ScreenKeepsInputs(c, s.screen, s.inputs, e.frame, e.memory, peer, reached, log);
    }
  }

  // ------------------------------------------------------------------ runs

  type Session = SessionOf<Config>

  type World = WorldOf<Owner, Press>

  type Scheduled = ScheduledOf<Event>

  ghost predicate SessionQualified(g: Session) { Qualified(g.listen) && Qualified(g.connect) }

  ghost function Advance(g: Session, w: World, s: Scheduled): World
    requires SessionQualified(g)
  {
    var c, o, peer := ConfigOf(g, s.who), OwnerOf(w, s.who), OwnerOf(w, Other(s.who)).flags;
    var o' := Step(c, o, s.event, peer);
    var log' := Extend(LogOf(w, s.who), Pressed(c, o, s.event, peer));
    With(w, s.who, o', log')
  }

  ghost function Run(g: Session, schedule: seq<Scheduled>): World
    requires SessionQualified(g)
    decreases |schedule|
  {
    if schedule == [] then World(FRESH_OWNER, FRESH_OWNER, [], [])
    else Advance(g, Run(g, schedule[..|schedule| - 1]), schedule[|schedule| - 1])
  }

  ghost predicate RoleSound(g: Session, w: World, r: Role)
    requires SessionQualified(g)
  {
    && OwnerSound(ConfigOf(g, r), OwnerOf(w, r), OwnerOf(w, Other(r)).flags)
    && InputsSound(OwnerOf(w, r).inputs, LogOf(w, r))
  }

  lemma AdvanceKeeps(g: Session, w: World, s: Scheduled)
    requires SessionQualified(g) && RoleSound(g, w, Listen) && RoleSound(g, w, Connect)
    ensures RoleSound(g, Advance(g, w, s), Listen) && RoleSound(g, Advance(g, w, s), Connect)
    ensures OnlyAdvances(OwnerOf(w, s.who), OwnerOf(Advance(g, w, s), s.who))
    ensures OwnerOf(w, s.who).ev.copy.Some? ==> LogOf(Advance(g, w, s), s.who) == LogOf(w, s.who)
  {
    hide Step, Pressed, OwnerSound, InputsSound, Frozen, Qualified;
    var c, o, p := ConfigOf(g, s.who), OwnerOf(w, s.who), OwnerOf(w, Other(s.who));
    StepKeeps(c, o, s.event, p.flags);
    StepKeepsInputs(c, o, s.event, p.flags, LogOf(w, s.who));
    PeerMayGrow(ConfigOf(g, Other(s.who)), p, o.flags, Step(c, o, s.event, p.flags).flags);
  }

  lemma FreshInputsSound()
    ensures InputsSound(FRESH_OWNER.inputs, [])
  {
  }

  // Every run keeps both owners sound, whatever the interleaving, the hook order
  // and the memory contents.
  lemma {:induction false} RunSound(g: Session, schedule: seq<Scheduled>)
    requires SessionQualified(g)
    ensures RoleSound(g, Run(g, schedule), Listen) && RoleSound(g, Run(g, schedule), Connect)
    decreases |schedule|
  {
    hide Advance, OwnerSound, Qualified, InputsSound;
    if schedule == [] {
      FreshOwnerSound(g.listen, {PartyQualified});
      FreshOwnerSound(g.connect, {PartyQualified});
      FreshInputsSound();
    } else {
      RunSound(g, schedule[..|schedule| - 1]);
      AdvanceKeeps(g, Run(g, schedule[..|schedule| - 1]), schedule[|schedule| - 1]);
    }
  }

  // Over every interleaving: the link is confirmed exactly when it is announced as
  // applied and only once both owners are at the menu; the outgoing member is
  // confirmed only once both owners announced the party screen and their slot.
  lemma RendezvousSafety(g: Session, schedule: seq<Scheduled>, who: Role)
    requires SessionQualified(g)
    ensures var own, peer := OwnerOf(Run(g, schedule), who), OwnerOf(Run(g, schedule), Other(who)).flags;
      && (LinkA in own.inputs.sent <==> LinkMenuApplied in own.flags)
      && (LinkA in own.inputs.sent ==> LinkMenuReady in own.flags && LinkMenuReady in peer)
      && (PartyA in own.inputs.sent ==>
            OutgoingSlotReady in own.flags && OutgoingSlotReady in peer
            && SelectMonReady in own.flags && SelectMonReady in peer)
  {
    hide EvidenceSound, FlagsSound, InputsSound, Run, Qualified;
    RunSound(g, schedule);
    var own, peer := OwnerOf(Run(g, schedule), who), OwnerOf(Run(g, schedule), Other(who)).flags;
    assert LinkA in own.inputs.sent ==> NeedsMet(LinkA, own.flags, peer);
    assert PartyA in own.inputs.sent ==> NeedsMet(PartyA, own.flags, peer);
  }

  lemma RunInputsBounded(g: Session, schedule: seq<Scheduled>, who: Role)
    requires SessionQualified(g)
    ensures var log := LogOf(Run(g, schedule), who);
      && |log| <= 120
      && (forall o :: NamedCount(log, o) <= 1)
      && (forall i, j :: 0 <= i < j < |log| ==> log[i].frame + log[i].duration <= log[j].frame)
  {
    hide OwnerSound, TotalCharged, QuotasKept, Run, Qualified;
    RunSound(g, schedule);
    InputTotalBounded(OwnerOf(Run(g, schedule), who).inputs, LogOf(Run(g, schedule), who));
  }

  // Whatever step is taken, each owner only advances, and an owner with a copy sends
  // nothing more.
  ghost predicate StaysFinal(w: World, w': World, who: Role) {
    && OnlyAdvances(OwnerOf(w, who), OwnerOf(w', who))
    && (OwnerOf(w, who).ev.copy.Some? ==> LogOf(w', who) == LogOf(w, who))
  }

  lemma StepIsFinal(g: Session, w: World, s: Scheduled, who: Role)
    requires SessionQualified(g) && RoleSound(g, w, Listen) && RoleSound(g, w, Connect)
    ensures StaysFinal(w, Advance(g, w, s), who)
  {
    AdvanceKeeps(g, w, s);
    OtherUntouched(g, w, s);
    hide Advance, OwnerSound, InputsSound, Qualified, RoleSound;
  }

  lemma OtherUntouched(g: Session, w: World, s: Scheduled)
    requires SessionQualified(g)
    ensures OwnerOf(Advance(g, w, s), Other(s.who)) == OwnerOf(w, Other(s.who))
    ensures LogOf(Advance(g, w, s), Other(s.who)) == LogOf(w, Other(s.who))
  {
    hide Step, Pressed, Qualified;
  }

  lemma FinalChains(a: World, b: World, c: World, who: Role)
    requires StaysFinal(a, b, who) && StaysFinal(b, c, who)
    ensures StaysFinal(a, c, who)
  {
  }

  // Over every continuation of a run: the copied and final parties stay as they
  // are, and no input follows an observed copy.
  lemma {:induction false} CopyIsFinal(g: Session, schedule: seq<Scheduled>, more: seq<Scheduled>, who: Role)
    requires SessionQualified(g)
    ensures OnlyAdvances(OwnerOf(Run(g, schedule), who), OwnerOf(Run(g, schedule + more), who))
    ensures OwnerOf(Run(g, schedule), who).ev.copy.Some? ==> LogOf(Run(g, schedule + more), who) == LogOf(Run(g, schedule), who)
    decreases |more|
  {
    RunStaysFinal(g, schedule, more, who);
    hide Run, OnlyAdvances;
  }

  lemma RunExtends(g: Session, schedule: seq<Scheduled>, s: Scheduled)
    requires SessionQualified(g)
    ensures Run(g, schedule + [s]) == Advance(g, Run(g, schedule), s)
  {
    hide Advance;
    var all := schedule + [s];
    assert all[..|all| - 1] == schedule && all[|all| - 1] == s;
  }

  lemma StaysSame(w: World, who: Role)
    ensures StaysFinal(w, w, who)
  {
  }

  lemma {:induction false} RunStaysFinal(g: Session, schedule: seq<Scheduled>, more: seq<Scheduled>, who: Role)
    requires SessionQualified(g)
    ensures StaysFinal(Run(g, schedule), Run(g, schedule + more), who)
    decreases |more|
  {
    hide *;
    if more == [] {
      assert schedule + more == schedule;
      StaysSame(Run(g, schedule), who);
    } else {
      var init, last := more[..|more| - 1], more[|more| - 1];
      assert schedule + more == (schedule + init) + [last];
      RunStaysFinal(g, schedule, init, who);
      RunSound(g, schedule + init);
      RunExtends(g, schedule + init, last);
      StepIsFinal(g, Run(g, schedule + init), last, who);
      FinalChains(Run(g, schedule), Run(g, schedule + init), Run(g, schedule + more), who);
    }
  }

  // ----------------------------------------------------------------- parent

  datatype Snapshot = Snapshot(
    role: Role, checkpoint: Checkpoint, slot: int, before: Option<Party>, copied: Option<Party>, final: Option<Party>,
    readiness: set<Phase>, reached: bool, copyComplete: bool, endpoint: bool, unsupported: Option<Fault>)

  function SnapshotOf(c: Config, s: Owner): Snapshot {
    Snapshot(c.role, c.checkpoint, c.slot, Some(c.before), s.ev.copy, s.ev.final, s.flags, ObjectiveComplete(c, s),
             CopyValidated in s.flags, CycleReturned in s.flags, s.error)
  }

  datatype Status = Partial | Complete | Mismatch | Unsupported

  datatype Complaint =
    | TwoReports | DistinctRoles | CheckpointContradicted | OwnerUnsupported | InvalidCheckpointEvidence
    | MissingEvidence | CopyDiffers | FinalDiffers | EndpointMissing | InvalidEvidence

  datatype Report = Report(complete: bool, checkpointOnly: bool, status: Status, errors: seq<Complaint>)

  ghost predicate SelectMonEvidence(o: Snapshot) {
    && o.before.Some? && PartyValid(o.before.value) && 0 <= o.slot < o.before.value.count
    && PartyQualified in o.readiness && SelectMonReady in o.readiness && o.reached
  }

  // Whether examining one report raises: its own parties or the peer's are unusable.
  ghost predicate Raises(o: Snapshot, p: Snapshot)
    requires o.before.Some? && o.copied.Some? && o.final.Some?
  {
    || p.before.None? || Expected(o.before.value, o.slot, p.before.value, p.slot).None?
    || !PartyValid(o.copied.value) || !PartyValid(o.final.value)
  }

  // One report folded into the verdict so far; the flag says the fold stops here.
  ghost function Examine(r: Report, o: Snapshot, p: Snapshot): (Report, bool) {
    if o.before.None? || o.copied.None? || o.final.None? then (r.(errors := r.errors + [MissingEvidence]), false)
    else if Raises(o, p) then (r.(status := Mismatch, errors := r.errors + [InvalidEvidence]), true)
    else
      var copyOk := o.copied == Expected(o.before.value, o.slot, p.before.value, p.slot);
      var r1 := if copyOk then r else r.(status := Mismatch, errors := r.errors + [CopyDiffers]);
      var r2 := if o.final == o.copied then r1
                else r1.(status := if r1.status != Mismatch then Unsupported else r1.status, errors := r1.errors + [FinalDiffers]);
      (if o.reached && o.copyComplete && o.endpoint then r2 else r2.(errors := r2.errors + [EndpointMissing]), false)
  }

  ghost function Conclude(r: Report): Report {
    if r.errors == [] then r.(complete := true, status := Complete) else r
  }

  const NOTHING_YET: Report := Report(false, false, Partial, [])

  ghost function ExchangeReport(o: Snapshot, p: Snapshot): Report {
    var (r, stop) := Examine(NOTHING_YET, o, p);
    Conclude(if stop then r else Examine(r, p, o).0)
  }

  ghost function Verdict(owners: seq<Snapshot>, cp: Checkpoint): Report {
    if |owners| != 2 then Report(false, false, Partial, [TwoReports])
    else
      var o, p := owners[0], owners[1];
      if o.role == p.role then Report(false, false, Mismatch, [DistinctRoles])
      else if o.checkpoint != cp || p.checkpoint != cp then Report(false, false, Mismatch, [CheckpointContradicted])
      else if o.unsupported.Some? && p.unsupported.Some? then
        Report(false, false, Unsupported, [OwnerUnsupported, OwnerUnsupported])
      else if o.unsupported.Some? || p.unsupported.Some? then Report(false, false, Unsupported, [OwnerUnsupported])
      else if cp == SelectMonGoal then
        if SelectMonEvidence(o) && SelectMonEvidence(p) then Report(false, true, Partial, [])
        else Report(false, false, Partial, [InvalidCheckpointEvidence])
      else ExchangeReport(o, p)
  }

  method ExpectedParty(before: Party, outgoing: int, peer: Party, incoming: int) returns (result: Option<Party>)
    ensures result == Expected(before, outgoing, peer, incoming)
  {
    var beforeOk := ValidateParty(before);
    var peerOk := ValidateParty(peer);
    if !beforeOk || !peerOk || !(0 <= outgoing < before.count) || !(0 <= incoming < peer.count) {
      return None;
    }
    return Some(Party(
      before.count,
      before.species[..before.count][..outgoing] + before.species[..before.count][outgoing + 1..] + [peer.species[incoming], 255],
      before.records[..outgoing] + before.records[outgoing + 1..] + [peer.records[incoming]],
      before.otNames[..outgoing] + before.otNames[outgoing + 1..] + [peer.otNames[incoming]],
      before.nicknames[..outgoing] + before.nicknames[outgoing + 1..] + [peer.nicknames[incoming]]));
  }

  method CheckSelectMon(o: Snapshot) returns (ok: bool)
    ensures ok <==> SelectMonEvidence(o)
  {
    if o.before.None? {
      return false;
    }
    var party := ValidateParty(o.before.value);
    return party && 0 <= o.slot < o.before.value.count
           && PartyQualified in o.readiness && SelectMonReady in o.readiness && o.reached;
  }

  method AdjudicatePair(owners: seq<Snapshot>, cp: Checkpoint) returns (result: Report)
    ensures result == Verdict(owners, cp)
  {
    hide Expected, PartyValid, SelectMonEvidence;
    if |owners| != 2 {
      return Report(false, false, Partial, [TwoReports]);
    }
    if owners[0].role == owners[1].role {
      return Report(false, false, Mismatch, [DistinctRoles]);
    }
    if owners[0].checkpoint != cp || owners[1].checkpoint != cp {
      return Report(false, false, Mismatch, [CheckpointContradicted]);
    }
    if owners[0].unsupported.Some? && owners[1].unsupported.Some? {
      return Report(false, false, Unsupported, [OwnerUnsupported, OwnerUnsupported]);
    }
    if owners[0].unsupported.Some? || owners[1].unsupported.Some? {
      return Report(false, false, Unsupported, [OwnerUnsupported]);
    }
    if cp == SelectMonGoal {
      var first := CheckSelectMon(owners[0]);
      var second := CheckSelectMon(owners[1]);
      return if first && second then Report(false, true, Partial, [])
             else Report(false, false, Partial, [InvalidCheckpointEvidence]);
    }
    result := Report(false, false, Partial, []);
    for index := 0 to 2
      invariant ExchangeReport(owners[0], owners[1]) ==
        if index == 0 then ExchangeReport(owners[0], owners[1])
        else if index == 1 then Conclude(Examine(result, owners[1], owners[0]).0)
        else Conclude(result)
      invariant index == 0 ==> result == NOTHING_YET
    {
      var o, p := owners[index], owners[1 - index];
      if o.before.None? || o.copied.None? || o.final.None? {
        result := result.(errors := result.errors + [MissingEvidence]);
      } else {
        var expected: Option<Party> := None;
        if p.before.Some? {
          expected := ExpectedParty(o.before.value, o.slot, p.before.value, p.slot);
        }
        var copiedOk := ValidateParty(o.copied.value);
        var finalOk := ValidateParty(o.final.value);
        if expected.None? || !copiedOk || !finalOk {
          result := result.(status := Mismatch, errors := result.errors + [InvalidEvidence]);
          return;
        }
        if o.copied != expected {
          result := result.(status := Mismatch, errors := result.errors + [CopyDiffers]);
        }
        if o.final != o.copied {
          result := result.(status := if result.status != Mismatch then Unsupported else result.status,
                            errors := result.errors + [FinalDiffers]);
        }
        if !(o.reached && o.copyComplete && o.endpoint) {
          result := result.(errors := result.errors + [EndpointMissing]);
        }
      }
    }
    if result.errors == [] {
      result := result.(complete := true, status := Complete);
    }
  }

  // ------------------------------------------------ live drivers and parent

  // What a driver at its exchange goal has established about its own parties.
  lemma GoalEvidence(c: Config, s: Owner, peer: set<Phase>)
    requires Qualified(c) && OwnerSound(c, s, peer) && c.checkpoint == ExchangeGoal && ObjectiveComplete(c, s)
    ensures s.ev.copy.Some? && s.ev.final == s.ev.copy && PartyValid(s.ev.copy.value)
    ensures SurvivorsKept(c.before, c.slot, s.ev.copy.value)
    ensures CopyValidated in s.flags && CycleReturned in s.flags
  {
    hide PartyValid, SurvivorsKept;
  }

  // A report whose driver reached its goal can only be faulted for its copy, and
  // only through the copy's last entry.
  lemma ExamineLive(r: Report, c: Config, s: Owner, d: Config, t: Owner, peer: set<Phase>)
    requires Qualified(c) && Qualified(d) && OwnerSound(c, s, peer)
    requires c.checkpoint == ExchangeGoal && ObjectiveComplete(c, s)
    ensures s.ev.copy.Some? && PartyValid(s.ev.copy.value)
    ensures Examine(r, SnapshotOf(c, s), SnapshotOf(d, t)) ==
      (if LastEntryIs(s.ev.copy.value, d.before, d.slot) then r
       else r.(status := Mismatch, errors := r.errors + [CopyDiffers]), false)
  {
    hide PartyValid, SurvivorsKept, Expected, LastEntryIs, EvidenceSound, FlagsSound;
    GoalEvidence(c, s, peer);
    CopyIsExpected(c.before, c.slot, s.ev.copy.value, d.before, d.slot);
    ExpectedSome(c.before, c.slot, d.before, d.slot);
  }

  lemma ExpectedSome(a: Party, i: int, b: Party, j: int)
    requires PartyValid(a) && PartyValid(b) && 0 <= i < a.count && 0 <= j < b.count
    ensures Expected(a, i, b, j).Some?
  {
  }

  // Over every run in which both drivers reach the exchange goal, the parent says
  // complete exactly when each copied last entry is the peer's outgoing member; a
  // refusal is a mismatch of copies and nothing else.
  lemma LivePairVerdict(g: Session, schedule: seq<Scheduled>)
    requires SessionQualified(g)
    requires g.listen.role == Listen && g.connect.role == Connect
    requires g.listen.checkpoint == ExchangeGoal && g.connect.checkpoint == ExchangeGoal
    requires ObjectiveComplete(g.listen, Run(g, schedule).listen)
    requires ObjectiveComplete(g.connect, Run(g, schedule).connect)
    ensures Run(g, schedule).listen.ev.copy.Some? && PartyValid(Run(g, schedule).listen.ev.copy.value)
    ensures Run(g, schedule).connect.ev.copy.Some? && PartyValid(Run(g, schedule).connect.ev.copy.value)
    ensures
      var w := Run(g, schedule);
      var report := Verdict([SnapshotOf(g.listen, w.listen), SnapshotOf(g.connect, w.connect)], ExchangeGoal);
      && (report.complete <==>
            LastEntryIs(w.listen.ev.copy.value, g.connect.before, g.connect.slot)
            && LastEntryIs(w.connect.ev.copy.value, g.listen.before, g.listen.slot))
      && (!report.complete ==> report.status == Mismatch && forall e :: e in report.errors ==> e == CopyDiffers)
  {
    hide Run, OwnerSound, InputsSound, Examine, LastEntryIs, PartyValid, Qualified;
    RunSound(g, schedule);
    var w := Run(g, schedule);
    var o, p := SnapshotOf(g.listen, w.listen), SnapshotOf(g.connect, w.connect);
    ExamineLive(NOTHING_YET, g.listen, w.listen, g.connect, w.connect, w.connect.flags);
    var (r, stop) := Examine(NOTHING_YET, o, p);
    ExamineLive(r, g.connect, w.connect, g.listen, w.listen, w.listen.flags);
    assert [o, p][0] == o && [o, p][1] == p;
  }

  // A complete pair is a real exchange: both final parties are what a reciprocal
  // trade of the two starting parties produces, so nothing was created or lost.
  lemma CompletePairConserves(owners: seq<Snapshot>)
    requires Verdict(owners, ExchangeGoal).complete
    ensures |owners| == 2
    ensures forall i :: 0 <= i < 2 ==>
      owners[i].before.Some? && owners[i].final.Some? && PartyValid(owners[i].before.value) && PartyValid(owners[i].final.value)
    ensures
      multiset(Members(owners[0].final.value)) + multiset(Members(owners[1].final.value))
      == multiset(Members(owners[0].before.value)) + multiset(Members(owners[1].before.value))
  {
    hide Members, PartyValid, Expected;
    var o, p := owners[0], owners[1];
    ExpectedParts(o.before.value, o.slot, p.before.value, p.slot);
    TradeConserves(o.before.value, o.slot, p.before.value, p.slot);
  }

  // What a complete trade report says of either side, field by field: both reports were
  // supported, at the exchange checkpoint and at their goals; the copied party is the
  // final one; its survivors are the initial party without the outgoing member, in order,
  // and its last member is the one the peer sent.
  lemma CompletePairMeans(owners: seq<Snapshot>, i: nat)
    requires Verdict(owners, ExchangeGoal).complete && i < 2
    ensures |owners| == 2 && owners[0].role != owners[1].role
    ensures var o, p := owners[i], owners[1 - i];
      && o.checkpoint == ExchangeGoal && o.unsupported.None? && o.reached && o.copyComplete && o.endpoint
      && o.before.Some? && p.before.Some? && o.copied.Some? && o.final == o.copied
      && PartyValid(o.before.value) && PartyValid(p.before.value)
      && 0 <= o.slot < o.before.value.count && 0 <= p.slot < p.before.value.count
      && var a, b, c, n := o.before.value, p.before.value, o.copied.value, o.before.value.count;
         && c.count == n && |c.records| == n && |c.otNames| == n && |c.nicknames| == n && |c.species| == n + 1
         && (forall k :: 0 <= k < n - 1 ==>
               var from := if k < o.slot then k else k + 1;
               c.records[k] == a.records[from] && c.otNames[k] == a.otNames[from] && c.nicknames[k] == a.nicknames[from]
               && c.species[k] == a.species[from])
         && c.records[n - 1] == b.records[p.slot] && c.otNames[n - 1] == b.otNames[p.slot]
         && c.nicknames[n - 1] == b.nicknames[p.slot] && c.species[n - 1] == b.species[p.slot] && c.species[n] == 255
  {
    hide SelectMonEvidence;
    var o, p := owners[i], owners[1 - i];
    ReportStatus(owners[0], owners[1]);
    hide Expected;
    ExpectedParts(o.before.value, o.slot, p.before.value, p.slot);
    ExpectedFields(o.before.value, o.slot, p.before.value, p.slot);
    hide PartyValid;
  }

  lemma ExpectedFields(a: Party, i: int, b: Party, j: int)
    requires PartyValid(a) && PartyValid(b) && 0 <= i < a.count && 0 <= j < b.count
    ensures Expected(a, i, b, j).Some?
    ensures var c, n := Expected(a, i, b, j).value, a.count;
      && c.count == n && |c.records| == n && |c.otNames| == n && |c.nicknames| == n && |c.species| == n + 1
      && (forall k :: 0 <= k < n - 1 ==>
            var from := if k < i then k else k + 1;
            c.records[k] == a.records[from] && c.otNames[k] == a.otNames[from] && c.nicknames[k] == a.nicknames[from]
            && c.species[k] == a.species[from])
      && c.records[n - 1] == b.records[j] && c.otNames[n - 1] == b.otNames[j]
      && c.nicknames[n - 1] == b.nicknames[j] && c.species[n - 1] == b.species[j] && c.species[n] == 255
  {
  }

  lemma ExpectedParts(a: Party, i: int, b: Party, j: int)
    requires Expected(a, i, b, j).Some?
    ensures PartyValid(a) && PartyValid(b) && 0 <= i < a.count && 0 <= j < b.count
  {
  }

  // -------------------------------------------------------- order of reports

  ghost predicate Faulted(o: Snapshot, p: Snapshot) {
    o.before.Some? && o.copied.Some? && o.final.Some?
    && (Raises(o, p) || o.copied != Expected(o.before.value, o.slot, p.before.value, p.slot))
  }

  // The verdict and its status do not depend on which report comes first.
  lemma VerdictOrder(o: Snapshot, p: Snapshot, cp: Checkpoint)
    ensures Verdict([o, p], cp).complete == Verdict([p, o], cp).complete
    ensures Verdict([o, p], cp).checkpointOnly == Verdict([p, o], cp).checkpointOnly
    ensures Verdict([o, p], cp).status == Verdict([p, o], cp).status
  {
    hide Expected, PartyValid, SelectMonEvidence;
    assert [o, p][0] == o && [o, p][1] == p && [p, o][0] == p && [p, o][1] == o;
    ReportStatus(o, p);
    ReportStatus(p, o);
  }

  ghost predicate Flawless(o: Snapshot, p: Snapshot) {
    && o.before.Some? && o.copied.Some? && o.final.Some? && !Faulted(o, p)
    && o.final == o.copied && o.reached && o.copyComplete && o.endpoint
  }

  ghost predicate Transformed(o: Snapshot) {
    o.before.Some? && o.copied.Some? && o.final.Some? && o.final != o.copied
  }

  // The status of an exchange report in terms of the two owners, symmetrically.
  lemma ReportStatus(o: Snapshot, p: Snapshot)
    ensures ExchangeReport(o, p).complete <==> Flawless(o, p) && Flawless(p, o)
    ensures !ExchangeReport(o, p).checkpointOnly
    ensures ExchangeReport(o, p).status ==
      if Flawless(o, p) && Flawless(p, o) then Complete
      else if Faulted(o, p) || Faulted(p, o) then Mismatch
      else if Transformed(o) || Transformed(p) then Unsupported
      else Partial
  {
    hide Expected, PartyValid;
  }
}
