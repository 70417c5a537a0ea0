// One owner's way through a whole battle, screen by screen and hook by hook, for any
// accepted configuration and any choice of the facts the parent asks for beyond the
// owner's own goal (scripts/_timed_battle_probe.py).
module BattleScript {
  import opened Common
  import opened BattleRules
  import opened BattleProtocol
  import opened Interleaving
  import opened BattleInvariants
  import opened BattlePair

  // ------------------------------------------------ one owner's events in a row

  ghost function Play(c: Config, s: Owner, events: seq<Event>, peer: set<Phase>): Owner
    decreases |events|
  {
    if events == [] then s else Step(c, Play(c, s, events[..|events| - 1], peer), events[|events| - 1], peer)
  }

  function By(who: Role, events: seq<Event>): seq<Scheduled> {
    seq(|events|, i requires 0 <= i < |events| => Scheduled(who, events[i]))
  }

  // Events of one owner alone change that owner as played and leave the other alone.
  lemma {:induction false} PlayedRun(g: Session, schedule: seq<Scheduled>, who: Role, events: seq<Event>)
    ensures var w, w' := Run(g, schedule), Run(g, schedule + By(who, events));
      && OwnerOf(w', Other(who)) == OwnerOf(w, Other(who))
      && OwnerOf(w', who) == Play(ConfigOf(g, who), OwnerOf(w, who), events, OwnerOf(w, Other(who)).flags)
    decreases |events|
  {
    hide Step, Advance;
    if events == [] {
      assert schedule + By(who, events) == schedule;
    } else {
      var init, last := events[..|events| - 1], events[|events| - 1];
      PlayedRun(g, schedule, who, init);
      var all := schedule + By(who, events);
      assert all[..|all| - 1] == schedule + By(who, init);
      assert all[|all| - 1] == Scheduled(who, last);
      AdvancesOne(g, Run(g, schedule + By(who, init)), who, last);
    }
  }

  lemma AdvancesOne(g: Session, w: World, who: Role, e: Event)
    ensures OwnerOf(Advance(g, w, Scheduled(who, e)), Other(who)) == OwnerOf(w, Other(who))
    ensures OwnerOf(Advance(g, w, Scheduled(who, e)), who)
      == Step(ConfigOf(g, who), OwnerOf(w, who), e, OwnerOf(w, Other(who)).flags)
  {
    hide Step, Pressed;
  }

  lemma {:induction false} PlayConcat(c: Config, s: Owner, a: seq<Event>, b: seq<Event>, peer: set<Phase>)
    ensures Play(c, s, a + b, peer) == Play(c, Play(c, s, a, peer), b, peer)
    decreases |b|
  {
    hide Step;
    if b == [] {
      assert a + b == a;
    } else {
      PlayConcat(c, s, a, b[..|b| - 1], peer);
      assert (a + b)[..|a + b| - 1] == a + b[..|b| - 1];
    }
  }

  lemma PlayTwo(c: Config, s: Owner, e: Event, f: Event, peer: set<Phase>)
    ensures Play(c, s, [e, f], peer) == Step(c, Step(c, s, e, peer), f, peer)
  {
    hide Step;
    assert [e, f][..1] == [e] && [e][..0] == [];
    assert Play(c, s, [e], peer) == Step(c, s, e, peer);
  }

  lemma PlayThree(c: Config, s: Owner, e: Event, f: Event, h: Event, peer: set<Phase>)
    ensures Play(c, s, [e, f, h], peer) == Step(c, Step(c, Step(c, s, e, peer), f, peer), h, peer)
  {
    hide Step;
    assert [e, f, h][..2] == [e, f];
    PlayTwo(c, s, e, f, peer);
  }

  lemma PlaySingle(c: Config, s: Owner, e: Event, peer: set<Phase>)
    ensures Play(c, s, [e], peer) == Step(c, s, e, peer)
  {
    hide Step;
    assert [e][..0] == [];
  }

  // ------------------------------------------------------------ what is read

  // Facts of every configuration the constructor accepts.
  ghost predicate Built(c: Config) {
    && Qualified(c)
    && PartyShape(c.before) && c.lead < c.before.count && RecordHp(c.before.records[c.lead]) != 0
    && var lead := LeadCombatant(c.before, c.lead);
      && (lead.status == 0 || lead.status == 64)
      && lead.pp[c.chosen.slot] % 64 != 0 && lead.moves[c.chosen.slot] == c.chosen.moveId
      && ExchangedEffect(c.rom, c.chosen.moveId) == Effect(c.chosen.effect) && !UnsupportedMove(c.chosen.moveId)
  }

  lemma ConstructBuilds(role: Role, version: Version, cp: Checkpoint, wanted: Option<nat>, rom: Rom, ram: PartyRam)
    requires Construct(role, version, cp, wanted, rom, ram).Some?
    ensures Built(Construct(role, version, cp, wanted, rom, ram).value)
  {
    ConstructQualifies(role, version, cp, wanted, rom, ram);
    var c := Construct(role, version, cp, wanted, rom, ram).value;
    var r := c.before.records[c.lead];
    if wanted.None? {
      ChosenIsFirstSendable(rom, r[8..12], r[29..33], 0, 4, false);
    } else {
      ChosenIsFirstSendable(rom, r[8..12], r[29..33], wanted.value, wanted.value + 1, true);
    }
    hide ChooseFrom, PLAIN_DAMAGE_MOVES;
  }

  ghost function Lead(c: Config): ReadMon
    requires Built(c)
  {
    LeadCombatant(c.before, c.lead)
  }

  function NoParty(): PartyRam { RawParty(0, seq(7, _ => 0), seq(6, _ => seq(44, _ => 0))) }

  // One memory for all screens of an owner facing `d`: each side sends out its lead and
  // picks its chosen move, and every move misses. The map is not the room.
  ghost function Read(c: Config, d: Config, item: Byte, maxItem: Byte): Memory
    requires Built(c) && Built(d)
  {
    Memory(0, 1, 1, 1, item, maxItem, 3, 15, 14, 0, c.chosen.moveId, d.chosen.moveId, c.chosen.slot, d.chosen.slot, 0,
           0, 0, 1, 0, 0, 0, 0, 0, 1, 0, Lead(c), Lead(d), NoParty())
  }

  lemma ReadFields(c: Config, d: Config, item: Byte, maxItem: Byte)
    requires Built(c) && Built(d)
    ensures var m := Read(c, d, item, maxItem);
      && m.curMap == 0 && m.linkState == 1 && m.item == item && m.maxItem == maxItem && m.watchedKeys == 3
      && m.topX == 15 && m.topY == 14 && m.partyMenuType == 0 && m.disabledMove == 0
      && m.whoseTurn == 0 && m.moveMissed == 1 && m.walkCounter == 1
  {
  }

  function OneLess(pp: Bytes, slot: nat): (after: Bytes)
    requires slot < |pp| && pp[slot] > 0
    ensures after == pp[slot := pp[slot] - 1]
  {
    var less: Byte := pp[slot] - 1;
    pp[slot := less]
  }

  ghost function Spent(c: Config): ReadMon
    requires Built(c)
  {
    var lead := Lead(c);
    Combatant(lead.slot, lead.species, lead.hp, lead.status, lead.moves, OneLess(lead.pp, c.chosen.slot))
  }

  // Both ROMs describe the peer's move the way the peer's own does.
  ghost predicate Knows(c: Config, d: Config) {
    var read := ExchangedEffect(c.rom, d.chosen.moveId);
    read.Effect? && read.value as int == d.chosen.effect
  }

  ghost function Exchanged(c: Config, d: Config, seqNo: int): Exchange
    requires Built(c) && Built(d)
  {
    Exchange(seqNo, c.chosen.slot, d.chosen.slot, c.chosen.moveId, d.chosen.moveId, c.chosen.effect, d.chosen.effect)
  }

  const MISSED: Ledger := Ledger(Action(true, true, NotSkipped, 0, Some(1), []), None)

  // ------------------------------------------------------------ where an owner stands

  predicate Calm(s: Owner) { s.error.None? && !s.closed && 0 <= s.sequence < 100 }

  // An owner's evidence, counters, flags and names sent.
  datatype Mark = Mark(ev: Evidence, seqNo: int, flags: set<Phase>, sent: set<Once>, next: int, pulses: nat)

  ghost predicate Stage(s: Owner, k: Mark) {
    && Calm(s) && s.sequence == k.seqNo && s.flags == k.flags && s.inputs.sent == k.sent && s.inputs.nextInput <= k.next
    && s.ev == k.ev && forall q :: Quantity(s.inputs.attempts, q) <= k.pulses
  }

  lemma StageFacts(s: Owner, k: Mark)
    requires Stage(s, k)
    ensures Calm(s) && s.ev == k.ev && s.flags == k.flags && s.inputs.sent == k.sent && s.sequence == k.seqNo
  {
  }

  lemma StageLoosens(s: Owner, k: Mark, next: int, pulses: nat)
    requires Stage(s, k) && k.next <= next && k.pulses <= pulses
    ensures Stage(s, k.(next := next, pulses := pulses))
  {
  }

  predicate Unfinished(c: Config, ev: Evidence) {
    if c.checkpoint == SettledTurnGoal then ev.turn.None? else ev.room.None?
  }

  predicate Pressable(q: Quota) {
    q == InContext(Link) || q == InContext(Battle) || q == InContext(PartyMenu) || q == InContext(MoveMenu)
  }

  // A decision outside the room, with nothing holding the owner back.
  lemma Decides(c: Config, s: Owner, frame: int, m: Memory, peer: set<Phase>)
    requires Calm(s) && Unfinished(c, s.ev) && PartyQualified in peer
    requires m.curMap == 0 && 0 <= frame <= 200 && s.inputs.nextInput <= frame
    ensures var d := DecideOnScreen(c, s, frame, m, peer, ColosseumReached in s.flags);
      Step(c, s, Deciding(frame, m), peer) == s.(flags := s.flags + d.published, inputs := d.inputs, error := d.fault)
  {
    hide DecideOnScreen;
  }

  // A first press of a named input leaves the quotas one higher at most.
  lemma Presses(i: Inputs, q: Quota, b: Button, frame: int, once: Once, pulses: nat)
    requires once !in i.sent && pulses < 10 && Pressable(q) && forall r :: Quantity(i.attempts, r) <= pulses
    ensures var d := Pulse(i, q, b, frame, Some(once));
      && d.fault == None && d.published == {} && d.inputs.sent == i.sent + {once} && d.inputs.nextInput == frame + 20
      && forall r :: Quantity(d.inputs.attempts, r) <= pulses + 1
  {
    var d := Pulse(i, q, b, frame, Some(once));
    assert Quantity(i.attempts, q) < QuotaLimit(q);
    forall r ensures Quantity(d.inputs.attempts, r) <= pulses + 1 {
      assert Quantity(i.attempts, r) <= pulses;
    }
  }

  predicate MayDecide(c: Config, k: Mark, frame: int, m: Memory, peer: set<Phase>) {
    && Unfinished(c, k.ev) && k.next <= frame && 0 <= frame <= 200 && k.pulses < 10
    && PartyQualified in peer && m.curMap == 0
  }

  ghost function Pressing(k: Mark, once: Once, frame: int, more: set<Phase>): Mark {
    k.(flags := k.flags + more, sent := k.sent + {once}, next := frame + 20, pulses := k.pulses + 1)
  }

  // A decision that presses one named input.
  lemma PressStage(
      c: Config, s: Owner, frame: int, m: Memory, peer: set<Phase>, q: Quota, b: Button, once: Once, more: set<Phase>, k: Mark)
    requires Stage(s, k) && MayDecide(c, k, frame, m, peer) && Pressable(q) && once !in k.sent
    requires var p := Pulse(s.inputs, q, b, frame, Some(once));
      DecideOnScreen(c, s, frame, m, peer, ColosseumReached in s.flags) == p.(published := p.published + more)
    ensures Stage(Step(c, s, Deciding(frame, m), peer), Pressing(k, once, frame, more))
  {
    hide Step, Pulse, DecideOnScreen, Quantity;
    Decides(c, s, frame, m, peer);
    Presses(s.inputs, q, b, frame, once, k.pulses);
  }

  // A decision that only announces a phase.
  lemma HoldStage(c: Config, s: Owner, frame: int, m: Memory, peer: set<Phase>, p: Phase, k: Mark)
    requires Stage(s, k) && MayDecide(c, k, frame, m, peer)
    requires DecideOnScreen(c, s, frame, m, peer, ColosseumReached in s.flags) == Announcing(p, Hold(s.inputs))
    ensures Stage(Step(c, s, Deciding(frame, m), peer), k.(flags := k.flags + {p}))
    ensures Step(c, s, Deciding(frame, m), peer).screen == s.screen
  {
    hide Step, DecideOnScreen, Quantity;
    Decides(c, s, frame, m, peer);
    assert s.flags + ({} + {p}) == s.flags + {p};
  }

  // --------------------------------------------------------------- hooks

  // Hooks that only change the screen.
  lemma ScreenHook(c: Config, s: Owner, h: Hook, m: Memory, peer: set<Phase>)
    requires Calm(s) && h in {LinkMenuWait, HandleMenuInput, MoveSelectionMenu}
    ensures Step(c, s, Observed(h, m), peer)
      == s.(sequence := s.sequence + 1, screen := EnterScreen(s.screen, h, InspectA in s.inputs.sent))
  {
    hide EnterScreen;
  }

  lemma MenuShown(c: Config, s: Owner, m: Memory, peer: set<Phase>)
    requires Calm(s)
    ensures Step(c, s, Observed(DisplayBattleMenu, m), peer)
      == s.(sequence := s.sequence + 1, screen := EnterScreen(s.screen, DisplayBattleMenu, InspectA in s.inputs.sent),
            flags := s.flags + if PartyInspected in s.flags && PartyB in s.inputs.sent then {PartyCancelled} else {})
  {
    hide EnterScreen;
  }

  lemma PartyShown(c: Config, s: Owner, m: Memory, peer: set<Phase>)
    requires Calm(s) && InspectA in s.inputs.sent
    ensures Step(c, s, Observed(HandlePartyMenuInput, m), peer)
      == s.(sequence := s.sequence + 1, screen := EnterScreen(s.screen, HandlePartyMenuInput, true),
            flags := s.flags + {PartyInspected})
  {
    hide EnterScreen;
  }

  // The menu hooks whose screen is polled next, and that publish nothing new.
  predicate Polled(h: Hook, k: Mark) {
    || h == MoveSelectionMenu
    || (h == DisplayBattleMenu && (PartyInspected in k.flags && PartyB in k.sent ==> PartyCancelled in k.flags))
  }

  lemma MenuStage(c: Config, s: Owner, h: Hook, m: Memory, peer: set<Phase>, k: Mark)
    requires Stage(s, k) && Polled(h, k) && k.seqNo <= 50
    ensures var t := Step(c, s, Observed(h, m), peer);
      Stage(t, k.(seqNo := k.seqNo + 1)) && t.screen.context == HookContext(h)
  {
    if h == MoveSelectionMenu { ScreenHook(c, s, h, m, peer); } else { MenuShown(c, s, m, peer); }
    hide Step, Quantity;
    assert Step(c, s, Observed(h, m), peer).flags == s.flags;
  }

  // A menu shown and then polled; nothing else moves.
  lemma PollsStage(c: Config, s: Owner, h: Hook, m: Memory, peer: set<Phase>, k: Mark)
    requires Stage(s, k) && Polled(h, k) && k.seqNo <= 50
    ensures var t := Step(c, Step(c, s, Observed(h, m), peer), Observed(HandleMenuInput, m), peer);
      && Stage(t, k.(seqNo := k.seqNo + 2))
      && t.screen.context == HookContext(h) && t.screen.poll == HookContext(h)
  {
    MenuStage(c, s, h, m, peer, k);
    hide Step, Quantity;
    ScreenHook(c, Step(c, s, Observed(h, m), peer), HandleMenuInput, m, peer);
  }

  lemma PartyStage(c: Config, s: Owner, m: Memory, peer: set<Phase>, k: Mark)
    requires Stage(s, k) && InspectA in k.sent && k.seqNo <= 50
    ensures var t := Step(c, s, Observed(HandlePartyMenuInput, m), peer);
      && Stage(t, k.(seqNo := k.seqNo + 1, flags := k.flags + {PartyInspected}))
      && t.screen.context == Some(PartyMenu) && t.screen.poll == Some(PartyMenu)
  {
    hide Step, Quantity;
    PartyShown(c, s, m, peer);
  }

  lemma LeftStage(c: Config, s: Owner, m: Memory, peer: set<Phase>, k: Mark)
    requires Stage(s, k) && PartyInspected in k.flags && PartyB in k.sent && k.seqNo <= 50
    ensures Stage(Step(c, s, Observed(DisplayBattleMenu, m), peer),
      k.(seqNo := k.seqNo + 1, flags := k.flags + {PartyCancelled}))
  {
    hide Step, Quantity;
    MenuShown(c, s, m, peer);
  }

  // ------------------------------------------------------------- screens

  lemma PicksLink(c: Config, s: Owner, m: Memory, peer: set<Phase>, reached: bool)
    requires s.screen.context == Some(Link)
    requires m.maxItem == (if c.version == Yellow then 3 else 2) && m.item == 1 && m.watchedKeys == 3
    ensures DecideOnScreen(c, s, 0, m, peer, reached)
      == Announcing(LinkMenuReady, if LinkMenuReady in peer then Pulse(s.inputs, InContext(Link), A, 0, Some(LinkA)) else Hold(s.inputs))
  {
    hide Pulse;
  }

  lemma PicksParty(c: Config, s: Owner, frame: int, m: Memory, peer: set<Phase>, reached: bool)
    requires s.screen.context == Some(Battle) && s.screen.poll == Some(Battle) && s.ev.turn.None? && PartyInspected !in s.flags
    requires m.maxItem == 1 && m.topY == 14 && m.topX == 15 && m.item == 0 && m.watchedKeys == 3
    ensures DecideOnScreen(c, s, frame, m, peer, reached) == Pulse(s.inputs, InContext(Battle), A, frame, Some(InspectA))
  {
    hide Pulse;
  }

  lemma PicksRun(c: Config, s: Owner, frame: int, m: Memory, peer: set<Phase>, reached: bool)
    requires s.screen.context == Some(Battle) && s.screen.poll == Some(Battle) && s.ev.turn.Some? && SettledTurn in peer
    requires m.maxItem == 1 && m.topY == 14 && m.topX == 15 && m.item == 1 && m.watchedKeys == 3
    ensures DecideOnScreen(c, s, frame, m, peer, reached) == Pulse(s.inputs, InContext(Battle), A, frame, Some(RunA))
  {
    hide Pulse;
  }

  lemma LeavesParty(c: Config, s: Owner, frame: int, m: Memory, peer: set<Phase>, reached: bool)
    requires s.screen.context == Some(PartyMenu) && s.screen.poll == Some(PartyMenu)
    requires m.partyMenuType == 0 && m.watchedKeys == 3 && m.maxItem as int == c.before.count - 1
    ensures DecideOnScreen(c, s, frame, m, peer, reached) == Pulse(s.inputs, InContext(PartyMenu), B, frame, Some(PartyB))
  {
    hide Pulse;
  }

  lemma PicksMove(c: Config, s: Owner, frame: int, m: Memory, peer: set<Phase>, reached: bool)
    requires s.screen.context == Some(MoveMenu) && s.screen.poll == Some(MoveMenu) && 0 <= c.chosen.slot <= 3
    requires m.item as int == c.chosen.slot + 1 && m.watchedKeys == 3 && m.disabledMove == 0
    ensures DecideOnScreen(c, s, frame, m, peer, reached)
      == Announcing(MoveReady, if MoveReady in peer then Pulse(s.inputs, InContext(MoveMenu), A, frame, Some(MoveA)) else Hold(s.inputs))
  {
    hide Pulse;
  }

  lemma AnnouncedPress(p: Phase, d: Decision)
    ensures Announcing(p, d) == d.(published := d.published + {p})
  {
  }

  // --------------------------------------------------------------- the opening

  // Which of the four facts an owner is to end up with.
  datatype Plan = Plan(menu: bool, room: bool, timely: bool, tidy: bool)

  const START: Mark := Mark(FRESH_OWNER.ev, 0, {PartyQualified}, {}, 0, 0)

  ghost function SeenRoom(plan: Plan, k: Mark): Mark {
    if plan.room then k.(flags := k.flags + {ColosseumReached}) else k
  }

  // The room is entered, or not.
  lemma EntersRoom(plan: Plan, c: Config, d: Config, peer: set<Phase>) returns (events: seq<Event>)
    requires Built(c) && Built(d) && PartyQualified in peer
    ensures Stage(Play(c, FRESH_OWNER, events, peer), SeenRoom(plan, START))
  {
    if plan.room {
      var m := Read(c, d, 0, 0).(curMap := 240);
      events := [Deciding(0, m)];
      PlaySingle(c, FRESH_OWNER, events[0], peer);
      assert InRoom(FRESH_OWNER.inputs, 0, m, peer) == Hold(FRESH_OWNER.inputs);
      hide InRoom, Play, Built, Lead;
      assert Step(c, FRESH_OWNER, events[0], peer) == FRESH_OWNER.(flags := {PartyQualified} + {ColosseumReached});
    } else {
      events := [];
    }
  }

  ghost function SeenMenu(plan: Plan, peer: set<Phase>, k: Mark): Mark {
    if !plan.menu then k.(next := 20, pulses := 1)
    else if LinkMenuReady in peer then Pressing(k.(seqNo := 1), LinkA, 0, {LinkMenuReady})
    else k.(seqNo := 1, flags := k.flags + {LinkMenuReady}, next := 20, pulses := 1)
  }

  lemma LinkStage(c: Config, s: Owner, m: Memory, peer: set<Phase>, k: Mark)
    requires Stage(s, k) && k.seqNo == 0
    ensures var t := Step(c, s, Observed(LinkMenuWait, m), peer);
      Stage(t, k.(seqNo := 1)) && t.screen.context == Some(Link)
  {
    ScreenHook(c, s, LinkMenuWait, m, peer);
    hide Step, Quantity;
  }

  // The link menu is announced, and confirmed at once when the peer is there already.
  lemma EntersMenu(plan: Plan, c: Config, d: Config, peer: set<Phase>, s: Owner) returns (events: seq<Event>)
    requires Built(c) && Built(d) && PartyQualified in peer && Stage(s, SeenRoom(plan, START))
    ensures Stage(Play(c, s, events, peer), SeenMenu(plan, peer, SeenRoom(plan, START)))
  {
    var k := SeenRoom(plan, START);
    assert k.ev == FRESH_OWNER.ev && k.seqNo == 0 && k.sent == {} && k.next == 0 && k.pulses == 0;
    if !plan.menu {
      events := [];
      StageLoosens(s, k, 20, 1);
      return;
    }
    var top := if c.version == Yellow then 3 else 2;
    var m := Read(c, d, 1, top);
    ReadFields(c, d, 1, top);
    var e, f := Observed(LinkMenuWait, m), Deciding(0, m);
    events := [e, f];
    var k1 := k.(seqNo := 1);
    assert MayDecide(c, k1, 0, m, peer) && Pressable(InContext(Link)) && LinkA !in k1.sent;
    assert SeenMenu(plan, peer, k) ==
      if LinkMenuReady in peer then Pressing(k1, LinkA, 0, {LinkMenuReady})
      else k1.(flags := k1.flags + {LinkMenuReady}).(next := 20, pulses := 1);
    hide *;
    PlayTwo(c, s, e, f, peer);
    LinkStage(c, s, m, peer, k);
    var t := Step(c, s, e, peer);
    PicksLink(c, t, m, peer, ColosseumReached in t.flags);
    if LinkMenuReady in peer {
      AnnouncedPress(LinkMenuReady, Pulse(t.inputs, InContext(Link), A, 0, Some(LinkA)));
      PressStage(c, t, 0, m, peer, InContext(Link), A, LinkA, {LinkMenuReady}, k1);
    } else {
      HoldStage(c, t, 0, m, peer, LinkMenuReady, k1);
      StageLoosens(Step(c, t, f, peer), k1.(flags := k1.flags + {LinkMenuReady}), 20, 1);
    }
  }

  // --------------------------------------------------------------- the menus

  // Nothing but perhaps the baseline is recorded yet.
  predicate BeforeTurn(k: Mark) {
    k.ev == FRESH_OWNER.ev.(baseline := k.ev.baseline) && k.seqNo <= 20 && k.pulses <= 5
  }

  lemma NothingRecorded(c: Config, k: Mark)
    requires BeforeTurn(k)
    ensures Unfinished(c, k.ev) && k.ev.turn.None? && k.pulses < 10 && k.seqNo <= 50
  {
  }

  // The party menu is picked from the battle menu.
  lemma Inspects(c: Config, d: Config, peer: set<Phase>, s: Owner, k: Mark) returns (events: seq<Event>)
    requires Built(c) && Built(d) && PartyQualified in peer
    requires Stage(s, k) && BeforeTurn(k) && PartyInspected !in k.flags && InspectA !in k.sent && k.next == 20
    ensures Stage(Play(c, s, events, peer), Pressing(k.(seqNo := k.seqNo + 2), InspectA, 20, {}))
  {
    NothingRecorded(c, k);
    var k2 := k.(seqNo := k.seqNo + 2);
    var m := Read(c, d, 0, 1);
    ReadFields(c, d, 0, 1);
    assert Polled(DisplayBattleMenu, k) && Pressable(InContext(Battle)) && HookContext(DisplayBattleMenu) == Some(Battle);
    assert MayDecide(c, k2, 20, m, peer);
    hide *;
    var e1, e2, e3 := Observed(DisplayBattleMenu, m), Observed(HandleMenuInput, m), Deciding(20, m);
    events := [e1, e2, e3];
    PlayThree(c, s, e1, e2, e3, peer);
    PollsStage(c, s, DisplayBattleMenu, m, peer, k);
    var t := Step(c, Step(c, s, e1, peer), e2, peer);
    StageFacts(t, k2);
    PicksParty(c, t, 20, m, peer, ColosseumReached in t.flags);
    PressStage(c, t, 20, m, peer, InContext(Battle), A, InspectA, {}, k2);
  }

  // The party menu is shown, then left again for the battle menu.
  lemma Cancels(c: Config, d: Config, peer: set<Phase>, s: Owner, k: Mark) returns (events: seq<Event>)
    requires Built(c) && Built(d) && PartyQualified in peer
    requires Stage(s, k) && BeforeTurn(k) && InspectA in k.sent && PartyB !in k.sent && k.next == 40 && k.seqNo <= 15
    ensures Stage(Play(c, s, events, peer), Cancelled(k))
  {
    assert 1 <= c.before.count <= 6;
    var m := Read(c, d, 0, c.before.count - 1);
    ReadFields(c, d, 0, c.before.count - 1);
    var e1, e2, e3 := Observed(HandlePartyMenuInput, m), Deciding(40, m), Observed(DisplayBattleMenu, m);
    events := [e1, e2, e3];
    var k1 := k.(seqNo := k.seqNo + 1, flags := k.flags + {PartyInspected});
    var k2 := Pressing(k1, PartyB, 40, {});
    NothingRecorded(c, k1);
    assert k2.seqNo <= 50 && PartyInspected in k2.flags && PartyB in k2.sent && k.seqNo <= 50;
    assert MayDecide(c, k1, 40, m, peer) && Pressable(InContext(PartyMenu));
    assert Cancelled(k) == k2.(seqNo := k2.seqNo + 1, flags := k2.flags + {PartyCancelled});
    hide *;
    PlayThree(c, s, e1, e2, e3, peer);
    PartyStage(c, s, m, peer, k);
    var s1 := Step(c, s, e1, peer);
    LeavesParty(c, s1, 40, m, peer, ColosseumReached in s1.flags);
    PressStage(c, s1, 40, m, peer, InContext(PartyMenu), B, PartyB, {}, k1);
    LeftStage(c, Step(c, s1, e2, peer), m, peer, k2);
  }

  ghost function Cancelled(k: Mark): Mark {
    var k2 := Pressing(k.(seqNo := k.seqNo + 1, flags := k.flags + {PartyInspected}), PartyB, 40, {});
    k2.(seqNo := k2.seqNo + 1, flags := k2.flags + {PartyCancelled})
  }

  predicate OnMoves(s: Owner) { s.screen.context == Some(MoveMenu) && s.screen.poll == Some(MoveMenu) }

  // The move menu shown and polled.
  lemma ShowsMoves(c: Config, m: Memory, peer: set<Phase>, s: Owner, k: Mark) returns (events: seq<Event>)
    requires Stage(s, k) && BeforeTurn(k)
    ensures var t := Play(c, s, events, peer); Stage(t, k.(seqNo := k.seqNo + 2)) && OnMoves(t)
  {
    var e1, e2 := Observed(MoveSelectionMenu, m), Observed(HandleMenuInput, m);
    events := [e1, e2];
    assert HookContext(MoveSelectionMenu) == Some(MoveMenu) && Polled(MoveSelectionMenu, k) && k.seqNo <= 50;
    assert forall t: Owner :: OnMoves(t) <==> t.screen.context == Some(MoveMenu) && t.screen.poll == Some(MoveMenu);
    hide *;
    PlayTwo(c, s, e1, e2, peer);
    PollsStage(c, s, MoveSelectionMenu, m, peer, k);
  }

  // From the battle menu to the move menu, party screen included.
  ghost function AtMoves(k: Mark): Mark {
    var k2 := Cancelled(Pressing(k.(seqNo := k.seqNo + 2), InspectA, 20, {}));
    k2.(seqNo := k2.seqNo + 2)
  }

  lemma Menus(c: Config, d: Config, peer: set<Phase>, s: Owner, k: Mark) returns (events: seq<Event>)
    requires Built(c) && Built(d) && PartyQualified in peer
    requires Stage(s, k) && BeforeTurn(k) && k.seqNo <= 5 && k.pulses <= 1 && k.next == 20
    requires PartyInspected !in k.flags && InspectA !in k.sent && PartyB !in k.sent
    ensures var t := Play(c, s, events, peer); Stage(t, AtMoves(k)) && OnMoves(t)
  {
    var k1 := Pressing(k.(seqNo := k.seqNo + 2), InspectA, 20, {});
    var k2 := Cancelled(k1);
    assert BeforeTurn(k1) && BeforeTurn(k2) && k2.(seqNo := k2.seqNo + 2) == AtMoves(k);
    assert InspectA in k1.sent && PartyB !in k1.sent && k1.next == 40 && k1.seqNo <= 15;
    hide *;
    var a := Inspects(c, d, peer, s, k);
    var b := Cancels(c, d, peer, Play(c, s, a, peer), k1);
    PlayConcat(c, s, a, b, peer);
    var e := ShowsMoves(c, MoveMemory(c, d), peer, Play(c, s, a + b, peer), k2);
    PlayConcat(c, s, a + b, e, peer);
    events := a + b + e;
  }

  ghost function MoveMemory(c: Config, d: Config): Memory
    requires Built(c) && Built(d)
  {
    Read(c, d, c.chosen.slot + 1, 0)
  }

  lemma MoveMemoryFields(c: Config, d: Config)
    requires Built(c) && Built(d)
    ensures var m := MoveMemory(c, d);
      && m.curMap == 0 && 0 <= c.chosen.slot <= 3
      && m.item as int == c.chosen.slot + 1 && m.watchedKeys == 3 && m.disabledMove == 0
  {
    ReadFields(c, d, c.chosen.slot + 1, 0);
  }

  // At the move menu the move is announced while the peer is not ready...
  lemma AnnouncesMove(c: Config, d: Config, peer: set<Phase>, s: Owner, k: Mark)
    requires Built(c) && Built(d) && PartyQualified in peer && MoveReady !in peer
    requires Stage(s, k) && BeforeTurn(k) && k.next <= 60 && OnMoves(s)
    ensures var t := Step(c, s, Deciding(60, MoveMemory(c, d)), peer);
      Stage(t, k.(flags := k.flags + {MoveReady})) && OnMoves(t)
  {
    var m := MoveMemory(c, d);
    MoveMemoryFields(c, d);
    NothingRecorded(c, k);
    assert MayDecide(c, k, 60, m, peer) && s.screen.context == Some(MoveMenu) && s.screen.poll == Some(MoveMenu);
    hide Stage, Step, DecideOnScreen, Built, MoveMemory, Quantity, Unfinished;
    PicksMove(c, s, 60, m, peer, ColosseumReached in s.flags);
    HoldStage(c, s, 60, m, peer, MoveReady, k);
  }

  // ... and confirmed once it is.
  lemma ConfirmsMove(c: Config, d: Config, peer: set<Phase>, s: Owner, k: Mark)
    requires Built(c) && Built(d) && PartyQualified in peer && MoveReady in peer
    requires Stage(s, k) && BeforeTurn(k) && k.next <= 60 && MoveA !in k.sent && OnMoves(s)
    ensures Stage(Step(c, s, Deciding(60, MoveMemory(c, d)), peer), Pressing(k, MoveA, 60, {MoveReady}))
  {
    var m := MoveMemory(c, d);
    MoveMemoryFields(c, d);
    NothingRecorded(c, k);
    assert MayDecide(c, k, 60, m, peer) && s.screen.context == Some(MoveMenu) && s.screen.poll == Some(MoveMenu);
    assert Pressable(InContext(MoveMenu));
    hide *;
    PicksMove(c, s, 60, m, peer, ColosseumReached in s.flags);
    AnnouncedPress(MoveReady, Pulse(s.inputs, InContext(MoveMenu), A, 60, Some(MoveA)));
    PressStage(c, s, 60, m, peer, InContext(MoveMenu), A, MoveA, {MoveReady}, k);
  }

  // ------------------------------------------------------------- the turn itself

  // The exchange crosses and is accepted, with or without a baseline.
  lemma Exchanges(c: Config, d: Config, s: Owner, peer: set<Phase>)
    requires Built(c) && Built(d) && Knows(c, d) && Calm(s) && s.ev.exchange.None? && s.ev.turn.None?
    requires PartyCancelled in s.flags && MoveA in s.inputs.sent
    ensures Step(c, s, Observed(PostExchange, Read(c, d, 0, 0)), peer)
      == s.(sequence := s.sequence + 1, ev := s.ev.(exchange := Some(Exchanged(c, d, s.sequence + 1))))
  {
    assert 0 <= c.chosen.slot <= 3 && 0 <= d.chosen.slot <= 3 && Lead(d).moves[d.chosen.slot] == d.chosen.moveId;
    hide Qualified, ExchangedEffect, PartyLead, Quantity, LeadCombatant;
  }

  // One hook of a side's action.
  lemma Acts(c: Config, s: Owner, h: Hook, m: Memory, peer: set<Phase>)
    requires Calm(s) && s.ev.exchange.Some? && s.ev.turn.None?
    requires h in {PlayerCanExecute, DecrementPp, PlayerMoveDone, EnemyCanExecute, EnemyMoveDone}
    requires ObserveDuringTurn(s.ev, h, m).fault == None
    ensures Step(c, s, Observed(h, m), peer) == s.(sequence := s.sequence + 1, ev := ObserveDuringTurn(s.ev, h, m).ev)
  {
  }

  // Both sides act and miss; the own PP cell is entered once.
  lemma BothMiss(c: Config, s: Owner, m: Memory, peer: set<Phase>) returns (events: seq<Event>)
    requires Calm(s) && s.sequence <= 50 && s.ev.exchange.Some? && s.ev.turn.None?
    requires s.ev.local == NO_LEDGER && s.ev.enemy == NO_LEDGER && s.ev.ppEntries == 0 && m.whoseTurn == 0 && m.moveMissed == 1
    ensures Play(c, s, events, peer)
      == s.(sequence := s.sequence + 5, ev := s.ev.(local := MISSED, enemy := MISSED, ppEntries := 1))
  {
    hide Step, Play;
    var e1, e2, e3 := Observed(PlayerCanExecute, m), Observed(DecrementPp, m), Observed(PlayerMoveDone, m);
    var e4, e5 := Observed(EnemyCanExecute, m), Observed(EnemyMoveDone, m);
    PlayThree(c, s, e1, e2, e3, peer);
    Acts(c, s, PlayerCanExecute, m, peer);
    var s1 := Step(c, s, e1, peer);
    Acts(c, s1, DecrementPp, m, peer);
    var s2 := Step(c, s1, e2, peer);
    Acts(c, s2, PlayerMoveDone, m, peer);
    var s3 := Step(c, s2, e3, peer);
    PlayTwo(c, s3, e4, e5, peer);
    Acts(c, s3, EnemyCanExecute, m, peer);
    Acts(c, Step(c, s3, e4, peer), EnemyMoveDone, m, peer);
    PlayConcat(c, s, [e1, e2, e3], [e4, e5], peer);
    events := [e1, e2, e3] + [e4, e5];
  }

  // The exchange has crossed and both sides have acted.
  ghost function Acted(c: Config, d: Config, k: Mark): Mark
    requires Built(c) && Built(d)
  {
    k.(seqNo := k.seqNo + 6,
       ev := k.ev.(exchange := Some(Exchanged(c, d, k.seqNo + 1)), local := MISSED, enemy := MISSED, ppEntries := 1))
  }

  lemma ExchangesAndActs(c: Config, d: Config, s: Owner, peer: set<Phase>, k: Mark) returns (events: seq<Event>)
    requires Built(c) && Built(d) && Knows(c, d) && Stage(s, k) && BeforeTurn(k)
    requires PartyCancelled in k.flags && MoveA in k.sent
    ensures Stage(Play(c, s, events, peer), Acted(c, d, k))
  {
    hide Built, Knows, Step, Play, Read, Exchanged, Quantity;
    var m := Read(c, d, 0, 0);
    ReadFields(c, d, 0, 0);
    Exchanges(c, d, s, peer);
    var x := Observed(PostExchange, m);
    PlaySingle(c, s, x, peer);
    var acts := BothMiss(c, Step(c, s, x, peer), m, peer);
    PlayConcat(c, s, [x], acts, peer);
    events := [x] + acts;
  }

  ghost function BaselineOf(c: Config, d: Config, seqNo: int): Baseline
    requires Built(c) && Built(d)
  {
    Baseline(seqNo, Lead(c), Lead(d))
  }

  ghost function TurnOf(c: Config, d: Config, exchangeSeq: int, settledSeq: int): Turn
    requires Built(c) && Built(d)
  {
    Turn(exchangeSeq, settledSeq, c.chosen.slot, d.chosen.slot, c.chosen.moveId, d.chosen.moveId,
         c.chosen.effect, d.chosen.effect, Spent(c), Lead(d), MISSED.action, MISSED.action, Lead(c).pp, Spent(c).pp, 1)
  }

  lemma BuiltLead(c: Config)
    requires Built(c)
    ensures Fit(Lead(c)) && Fit(Spent(c)) && 0 <= c.chosen.slot <= 3 && 1 <= c.chosen.moveId <= 165
    ensures Lead(c).moves[c.chosen.slot] == c.chosen.moveId && CatalogEffect(c.chosen.moveId) == Some(c.chosen.effect)
    ensures Lead(c).pp[c.chosen.slot] % 64 != 0 && Spent(c) == Lead(c).(pp := Spent(c).pp)
    ensures Lead(c).slot as int == c.lead && BaselineValid(c.before, Lead(c))
  {
    hide PLAIN_DAMAGE_MOVES, CatalogEffect, ExchangedEffect;
  }

  lemma TurnValid(c: Config, d: Config, b: int, x: int, t: int)
    requires Built(c) && Built(d)
    ensures LocalTurnValid(BaselineOf(c, d, b), TurnOf(c, d, x, t))
  {
    BuiltLead(c);
    BuiltLead(d);
    assert !UnsupportedMove(c.chosen.moveId) && !UnsupportedMove(d.chosen.moveId);
    assert ReplayHp(Lead(c).hp, []) == Some(Lead(c).hp as int) && ReplayHp(Lead(d).hp, []) == Some(Lead(d).hp as int);
    hide Built, Lead, CatalogEffect, UnsupportedMove, Fit, ReplayHp;
  }

  lemma BaselineFrozen(c: Config, d: Config, s: Owner, peer: set<Phase>)
    requires Built(c) && Built(d) && Calm(s) && s.ev.baseline.None?
    ensures Step(c, s, Observed(MainInBattleLoop, Read(c, d, 0, 0)), peer)
      == s.(sequence := s.sequence + 1, flags := s.flags + {BattleMenuReady},
            ev := s.ev.(baseline := Some(BaselineOf(c, d, s.sequence + 1))))
  {
    BuiltLead(c);
    BuiltLead(d);
    hide Built, Lead, CatalogEffect, BaselineValid;
  }

  ghost function Based(c: Config, d: Config, k: Mark): Mark
    requires Built(c) && Built(d)
  {
    k.(seqNo := k.seqNo + 1, flags := k.flags + {BattleMenuReady},
       ev := k.ev.(baseline := Some(BaselineOf(c, d, k.seqNo + 1))))
  }

  lemma BaselineStage(c: Config, d: Config, s: Owner, peer: set<Phase>, k: Mark)
    requires Built(c) && Built(d) && Stage(s, k) && k.ev.baseline.None? && k.seqNo < 50
    ensures Stage(Step(c, s, Observed(MainInBattleLoop, Read(c, d, 0, 0)), peer), Based(c, d, k))
  {
    hide Built, Step, Read, BaselineOf, Quantity;
    BaselineFrozen(c, d, s, peer);
  }

  lemma TurnFrozen(c: Config, d: Config, s: Owner, b: int, x: int, peer: set<Phase>)
    requires Built(c) && Built(d) && Calm(s) && s.ev.turn.None?
    requires s.ev.baseline == Some(BaselineOf(c, d, b)) && s.ev.exchange == Some(Exchanged(c, d, x))
    requires s.ev.local == MISSED && s.ev.enemy == MISSED && s.ev.ppEntries == 1
    ensures Step(c, s, Observed(MainInBattleLoop, Read(c, d, 0, 0).(local := Spent(c))), peer)
      == s.(sequence := s.sequence + 1, flags := s.flags + {SettledTurn},
            ev := s.ev.(turn := Some(TurnOf(c, d, x, s.sequence + 1))))
  {
    TurnValid(c, d, b, x, s.sequence + 1);
    BuiltLead(c);
    BuiltLead(d);
    hide Built, Lead, Spent, LocalTurnValid, CatalogEffect, BaselineValid;
  }

  ghost function Turned(c: Config, d: Config, x: int, k: Mark): Mark
    requires Built(c) && Built(d)
  {
    k.(seqNo := k.seqNo + 1, flags := k.flags + {SettledTurn}, ev := k.ev.(turn := Some(TurnOf(c, d, x, k.seqNo + 1))))
  }

  lemma TurnStage(c: Config, d: Config, s: Owner, b: int, x: int, peer: set<Phase>, k: Mark)
    requires Built(c) && Built(d) && Stage(s, k) && k.ev.turn.None? && k.seqNo < 50
    requires k.ev.baseline == Some(BaselineOf(c, d, b)) && k.ev.exchange == Some(Exchanged(c, d, x))
    requires k.ev.local == MISSED && k.ev.enemy == MISSED && k.ev.ppEntries == 1
    ensures Stage(Step(c, s, Observed(MainInBattleLoop, Read(c, d, 0, 0).(local := Spent(c))), peer), Turned(c, d, x, k))
  {
    hide Built, Step, Read, BaselineOf, Exchanged, TurnOf, Spent, Quantity;
    TurnFrozen(c, d, s, b, x, peer);
  }

  // The settled turn, with the baseline frozen before the exchange or only behind it.
  ghost function SettledMark(plan: Plan, c: Config, d: Config, k: Mark): Mark
    requires Built(c) && Built(d)
  {
    var a := Acted(c, d, k);
    Turned(c, d, k.seqNo + 1, if plan.timely then a else Based(c, d, a))
  }

  lemma TurnPlayed(plan: Plan, c: Config, d: Config, s: Owner, peer: set<Phase>, k: Mark, b: int) returns (events: seq<Event>)
    requires Built(c) && Built(d) && Knows(c, d) && Stage(s, k) && BeforeTurn(k)
    requires PartyCancelled in k.flags && MoveA in k.sent
    requires k.ev.baseline == if plan.timely then Some(BaselineOf(c, d, b)) else None
    ensures Stage(Play(c, s, events, peer), SettledMark(plan, c, d, k))
  {
    hide Built, Knows, Step, Play, Read, Exchanged, BaselineOf, TurnOf, Spent, Stage;
    var acts := ExchangesAndActs(c, d, s, peer, k);
    var t, a := Play(c, s, acts, peer), Acted(c, d, k);
    var settle := Observed(MainInBattleLoop, Read(c, d, 0, 0).(local := Spent(c)));
    if plan.timely {
      TurnStage(c, d, t, b, k.seqNo + 1, peer, a);
      PlaySingle(c, t, settle, peer);
      PlayConcat(c, s, acts, [settle], peer);
      events := acts + [settle];
    } else {
      var e := Observed(MainInBattleLoop, Read(c, d, 0, 0));
      BaselineStage(c, d, t, peer, a);
      TurnStage(c, d, Step(c, t, e, peer), a.seqNo + 1, k.seqNo + 1, peer, Based(c, d, a));
      PlayTwo(c, t, e, settle, peer);
      PlayConcat(c, s, acts, [e, settle], peer);
      events := acts + [e, settle];
    }
  }

  // ------------------------------------------------------------- back to the room

  // The run is picked from the battle menu once the peer has settled as well.
  lemma Runs(c: Config, d: Config, s: Owner, peer: set<Phase>, k: Mark) returns (events: seq<Event>)
    requires Built(c) && Built(d) && c.checkpoint == RoomReturnGoal && PartyQualified in peer && SettledTurn in peer
    requires Stage(s, k) && k.ev.turn.Some? && k.ev.room.None? && RunA !in k.sent && PartyCancelled in k.flags
    requires k.next <= 100 && k.seqNo <= 40 && k.pulses < 10
    ensures Stage(Play(c, s, events, peer), Pressing(k.(seqNo := k.seqNo + 2), RunA, 100, {}))
  {
    var k2 := k.(seqNo := k.seqNo + 2);
    var m := Read(c, d, 1, 1);
    ReadFields(c, d, 1, 1);
    assert Polled(DisplayBattleMenu, k) && Pressable(InContext(Battle)) && HookContext(DisplayBattleMenu) == Some(Battle);
    assert MayDecide(c, k2, 100, m, peer);
    hide *;
    var e1, e2, e3 := Observed(DisplayBattleMenu, m), Observed(HandleMenuInput, m), Deciding(100, m);
    events := [e1, e2, e3];
    PlayThree(c, s, e1, e2, e3, peer);
    PollsStage(c, s, DisplayBattleMenu, m, peer, k);
    var t := Step(c, Step(c, s, e1, peer), e2, peer);
    StageFacts(t, k2);
    PicksRun(c, t, 100, m, peer, ColosseumReached in t.flags);
    PressStage(c, t, 100, m, peer, InContext(Battle), A, RunA, {}, k2);
  }

  ghost function RunMemory(c: Config, d: Config): Memory
    requires Built(c) && Built(d)
  {
    Read(c, d, 0, 0).(send := 15, receive := 15, result := 2)
  }

  ghost function Ended(k: Mark): Mark {
    k.(seqNo := k.seqNo + 1, ev := k.ev.(end := Some(EndMark(k.seqNo + 1, 15, 15, 2))))
  }

  // The end of the battle is recorded, for the first time or over an older mark.
  lemma EndStage(c: Config, d: Config, s: Owner, peer: set<Phase>, k: Mark)
    requires Built(c) && Built(d) && Stage(s, k) && k.ev.turn.Some? && RunA in k.sent && k.seqNo <= 50
    ensures Stage(Step(c, s, Observed(EndOfBattle, RunMemory(c, d)), peer), Ended(k))
  {
    var m := RunMemory(c, d);
    assert m.send == 15 && m.receive == 15 && m.result == 2;
    hide Read, Built, RunMemory, EnterScreen, Quantity;
  }

  ghost function Returned(k: Mark): Mark { k.(seqNo := k.seqNo + 1, ev := k.ev.(returned := Some(k.seqNo + 1))) }

  lemma ReturnStage(c: Config, s: Owner, m: Memory, peer: set<Phase>, k: Mark)
    requires Stage(s, k) && k.ev.end.Some? && k.seqNo <= 50
    ensures Stage(Step(c, s, Observed(ReturnToRoom, m), peer), Returned(k))
  {
    hide EnterScreen, Quantity;
  }

  // A party that can be healed: no member's maximum is zero.
  ghost predicate Healable(p: Party) {
    PartyShape(p) && forall i :: 0 <= i < p.count ==> BigEndian(p.records[i][34], p.records[i][35]) != 0
  }

  ghost function HealedRecord(r: Bytes): (h: Bytes)
    requires |r| == 44 && BigEndian(r[34], r[35]) != 0
    ensures |h| == 44 && RecordHealed(r, h) && h[0] == r[0]
  {
    var h := r[1 := r[34]][2 := r[35]][4 := 0];
    assert h[1..3] == h[34..36];
    h
  }

  ghost function Healed(p: Party): (h: Party)
    requires Healable(p)
    ensures HealedValid(p, h)
  {
    var h := Party(p.count, p.species, seq(p.count, i requires 0 <= i < p.count => HealedRecord(p.records[i])));
    assert forall i :: 0 <= i < p.count ==> RecordHealed(p.records[i], h.records[i]) && RecordMatches(h.records[i], h.species[i]);
    assert PartyShape(h) && RecordHp(h.records[0]) != 0;
    h
  }

  ghost function SpeciesBytes(p: Party): (r: Bytes)
    requires PartyShape(p)
    ensures |r| == |p.species| && forall i :: 0 <= i < |r| ==> r[i] == p.species[i]
  {
    seq(|p.species|, i requires 0 <= i < |p.species| => p.species[i])
  }

  // Memory that holds a given party.
  ghost function RamOf(p: Party): (ram: PartyRam)
    requires PartyLead(p).Some?
    ensures ReadParty(ram) == Some(p)
  {
    var blank: Bytes := seq(44, _ => 0);
    var ram := RawParty(p.count, Padded(SpeciesBytes(p), 7, 0), Padded(p.records, 6, blank));
    assert forall i :: 0 <= i < p.count ==> ram.records[i] == ram.records[..p.count][i] == p.records[i];
    assert ram.species[..p.count + 1] == p.species && ram.records[..p.count] == p.records;
    ram
  }

  ghost function HomeMemory(c: Config, d: Config): Memory
    requires Built(c) && Built(d) && Healable(c.before)
  {
    Read(c, d, 0, 0).(curMap := 240, linkState := 1, inBattle := 0, party := RamOf(Healed(c.before)))
  }

  ghost function Homed(c: Config, k: Mark): Mark
    requires Healable(c.before) && k.ev.end.Some? && k.ev.returned.Some?
  {
    k.(seqNo := k.seqNo + 1, flags := k.flags + {RoomReturned},
       ev := k.ev.(room := Some(Room(k.ev.end.value, k.ev.returned.value, k.seqNo + 1, 240, 1, 0, Healed(c.before)))))
  }

  lemma HomeMemoryFields(c: Config, d: Config)
    requires Built(c) && Built(d) && Healable(c.before)
    ensures var m := HomeMemory(c, d);
      m.curMap == 240 && m.linkState == 1 && m.inBattle == 0 && ReadParty(m.party) == Some(Healed(c.before))
    ensures PartyShape(c.before) && HealedValid(c.before, Healed(c.before))
  {
    hide Read, Built, HealedValid, ReadParty;
  }

  lemma HomeStage(c: Config, d: Config, s: Owner, peer: set<Phase>, k: Mark)
    requires Built(c) && Built(d) && Healable(c.before) && Stage(s, k) && k.seqNo <= 50
    requires k.ev.end.Some? && k.ev.returned.Some? && k.ev.room.None?
    ensures Stage(Step(c, s, Ticked(HomeMemory(c, d)), peer), Homed(c, k))
  {
    HomeMemoryFields(c, d);
    hide Read, Built, HomeMemory, ReadParty, HealedValid, PartyShape, Healed, RamOf, Healable, Quantity;
  }

  // The way back, tidy or with the end of the battle reported once more on the way.
  ghost function BackMark(plan: Plan, k: Mark): Mark {
    var back := Returned(Ended(Pressing(k.(seqNo := k.seqNo + 2), RunA, 100, {})));
    if plan.tidy then back else Ended(back)
  }

  lemma BackFacts(plan: Plan, k: Mark)
    requires k.ev.turn.Some? && k.ev.room.None? && k.seqNo <= 40
    ensures var k1 := Pressing(k.(seqNo := k.seqNo + 2), RunA, 100, {});
      && k1.ev.turn.Some? && RunA in k1.sent && k1.seqNo <= 50
      && Ended(k1).ev.end.Some? && Ended(k1).seqNo <= 50
      && Returned(Ended(k1)).ev.turn.Some? && RunA in Returned(Ended(k1)).sent && Returned(Ended(k1)).seqNo <= 50
    ensures var b := BackMark(plan, k);
      b.ev.end.Some? && b.ev.returned.Some? && b.ev.room.None? && b.seqNo <= 50
  {
  }

  lemma LeavesBattle(plan: Plan, c: Config, d: Config, s: Owner, peer: set<Phase>, k: Mark) returns (events: seq<Event>)
    requires Built(c) && Built(d) && c.checkpoint == RoomReturnGoal && PartyQualified in peer && SettledTurn in peer
    requires Stage(s, k) && k.ev.turn.Some? && k.ev.room.None? && RunA !in k.sent && PartyCancelled in k.flags
    requires k.next <= 100 && k.seqNo <= 40 && k.pulses < 10
    ensures Stage(Play(c, s, events, peer), BackMark(plan, k))
  {
    var k1 := Pressing(k.(seqNo := k.seqNo + 2), RunA, 100, {});
    BackFacts(plan, k);
    assert BackMark(plan, k) == if plan.tidy then Returned(Ended(k1)) else Ended(Returned(Ended(k1)));
    hide *;
    var a := Runs(c, d, s, peer, k);
    var s1, m := Play(c, s, a, peer), RunMemory(c, d);
    var e, f := Observed(EndOfBattle, m), Observed(ReturnToRoom, m);
    EndStage(c, d, s1, peer, k1);
    ReturnStage(c, Step(c, s1, e, peer), m, peer, Ended(k1));
    var t := Step(c, Step(c, s1, e, peer), f, peer);
    if plan.tidy {
      PlayTwo(c, s1, e, f, peer);
      PlayConcat(c, s, a, [e, f], peer);
      events := a + [e, f];
    } else {
      EndStage(c, d, t, peer, Returned(Ended(k1)));
      PlayThree(c, s1, e, f, e, peer);
      PlayConcat(c, s, a, [e, f, e], peer);
      events := a + [e, f, e];
    }
  }

  ghost function HomeMark(plan: Plan, c: Config, k: Mark): Mark
    requires Healable(c.before)
  {
    Homed(c, BackMark(plan, k))
  }

  lemma ReturnsHome(plan: Plan, c: Config, d: Config, s: Owner, peer: set<Phase>, k: Mark) returns (events: seq<Event>)
    requires Built(c) && Built(d) && Healable(c.before) && c.checkpoint == RoomReturnGoal
    requires PartyQualified in peer && SettledTurn in peer
    requires Stage(s, k) && k.ev.turn.Some? && k.ev.room.None? && RunA !in k.sent && PartyCancelled in k.flags
    requires k.next <= 100 && k.seqNo <= 40 && k.pulses < 10
    ensures Stage(Play(c, s, events, peer), HomeMark(plan, c, k))
  {
    var b := BackMark(plan, k);
    BackFacts(plan, k);
    assert HomeMark(plan, c, k) == Homed(c, b);
    hide *;
    var a := LeavesBattle(plan, c, d, s, peer, k);
    var u, h := Play(c, s, a, peer), Ticked(HomeMemory(c, d));
    HomeStage(c, d, u, peer, b);
    PlaySingle(c, u, h, peer);
    PlayConcat(c, s, a, [h], peer);
    events := a + [h];
  }

  // ------------------------------------------------------------- the whole way

  ghost function Opened(plan: Plan, c: Config, d: Config, peer: set<Phase>): Mark
    requires Built(c) && Built(d)
  {
    var k := SeenMenu(plan, peer, SeenRoom(plan, START));
    if plan.timely then Based(c, d, k) else k
  }

  lemma OpenedFacts(plan: Plan, c: Config, d: Config, peer: set<Phase>)
    requires Built(c) && Built(d)
    ensures var k := SeenMenu(plan, peer, SeenRoom(plan, START)); k.ev.baseline.None? && k.seqNo < 50
    ensures var k := Opened(plan, c, d, peer);
      && BeforeTurn(k) && k.seqNo <= 5 && k.pulses <= 1 && k.next == 20
      && PartyInspected !in k.flags && InspectA !in k.sent && PartyB !in k.sent
  {
    hide Built, BaselineOf;
  }

  // From the start to the move menu.
  lemma Approaches(plan: Plan, c: Config, d: Config, peer: set<Phase>) returns (events: seq<Event>)
    requires Built(c) && Built(d) && PartyQualified in peer
    ensures var t := Play(c, FRESH_OWNER, events, peer); Stage(t, AtMoves(Opened(plan, c, d, peer))) && OnMoves(t)
  {
    OpenedFacts(plan, c, d, peer);
    var k1 := SeenMenu(plan, peer, SeenRoom(plan, START));
    var k2 := Opened(plan, c, d, peer);
    assert k2 == if plan.timely then Based(c, d, k1) else k1;
    hide *;
    var a := EntersRoom(plan, c, d, peer);
    var b := EntersMenu(plan, c, d, peer, Play(c, FRESH_OWNER, a, peer));
    PlayConcat(c, FRESH_OWNER, a, b, peer);
    events := a + b;
    if plan.timely {
      var t, e := Play(c, FRESH_OWNER, events, peer), Observed(MainInBattleLoop, Read(c, d, 0, 0));
      BaselineStage(c, d, t, peer, k1);
      PlaySingle(c, t, e, peer);
      PlayConcat(c, FRESH_OWNER, events, [e], peer);
      events := events + [e];
    }
    var menus := Menus(c, d, peer, Play(c, FRESH_OWNER, events, peer), k2);
    PlayConcat(c, FRESH_OWNER, events, menus, peer);
    events := events + menus;
  }

  // What holds at the move menu, whether or not the move was announced there.
  ghost predicate Ready(plan: Plan, c: Config, d: Config, k: Mark)
    requires Built(c) && Built(d)
  {
    && BeforeTurn(k) && k.next <= 60 && k.seqNo <= 10 && k.pulses <= 4 && MoveA !in k.sent && RunA !in k.sent
    && PartyQualified in k.flags && PartyCancelled in k.flags
    && (LinkMenuReady in k.flags <==> plan.menu) && (ColosseumReached in k.flags <==> plan.room)
    && (if plan.timely then k.ev.baseline.Some? && k.ev.baseline == Some(BaselineOf(c, d, k.ev.baseline.value.seqNo))
          && k.ev.baseline.value.seqNo <= k.seqNo
        else k.ev.baseline.None?)
  }

  lemma AtMovesFacts(k: Mark)
    ensures var a := AtMoves(k);
      && a.flags == k.flags + {PartyInspected} + {PartyCancelled} && a.sent == k.sent + {InspectA} + {PartyB}
      && a.ev == k.ev && a.seqNo == k.seqNo + 6 && a.next == 60 && a.pulses == k.pulses + 2
  {
  }

  lemma OpenedFlags(plan: Plan, c: Config, d: Config, peer: set<Phase>)
    requires Built(c) && Built(d)
    ensures var k := Opened(plan, c, d, peer);
      && PartyQualified in k.flags && MoveReady !in k.flags && MoveA !in k.sent && RunA !in k.sent
      && (LinkMenuReady in k.flags <==> plan.menu) && (ColosseumReached in k.flags <==> plan.room)
      && k.ev.baseline == if plan.timely then Some(BaselineOf(c, d, k.seqNo)) else None
  {
    hide Built, BaselineOf;
  }

  lemma ApproachReady(plan: Plan, c: Config, d: Config, peer: set<Phase>)
    requires Built(c) && Built(d)
    ensures var k := AtMoves(Opened(plan, c, d, peer));
      && Ready(plan, c, d, k) && Ready(plan, c, d, k.(flags := k.flags + {MoveReady})) && MoveReady !in k.flags
  {
    var k := Opened(plan, c, d, peer);
    OpenedFacts(plan, c, d, peer);
    OpenedFlags(plan, c, d, peer);
    AtMovesFacts(k);
    hide Built, Opened, AtMoves;
    assert plan.timely ==> BaselineOf(c, d, k.seqNo).seqNo == k.seqNo;
    hide BaselineOf;
  }

  ghost function TurnMark(plan: Plan, c: Config, d: Config, k: Mark): Mark
    requires Built(c) && Built(d)
  {
    SettledMark(plan, c, d, Pressing(k, MoveA, 60, {MoveReady}))
  }

  // From the move menu, with the peer ready, to the settled turn.
  lemma Settles(plan: Plan, c: Config, d: Config, s: Owner, peer: set<Phase>, k: Mark) returns (events: seq<Event>)
    requires Built(c) && Built(d) && Knows(c, d) && PartyQualified in peer && MoveReady in peer
    requires Stage(s, k) && Ready(plan, c, d, k) && OnMoves(s)
    ensures Stage(Play(c, s, events, peer), TurnMark(plan, c, d, k))
  {
    var k1 := Pressing(k, MoveA, 60, {MoveReady});
    var b := if plan.timely then k.ev.baseline.value.seqNo else 0;
    assert BeforeTurn(k) && BeforeTurn(k1) && k.next <= 60 && MoveA !in k.sent && PartyCancelled in k1.flags && MoveA in k1.sent
      && k1.ev.baseline == if plan.timely then Some(BaselineOf(c, d, b)) else None;
    assert TurnMark(plan, c, d, k) == SettledMark(plan, c, d, k1);
    hide *;
    ConfirmsMove(c, d, peer, s, k);
    var e := Deciding(60, MoveMemory(c, d));
    var t := Step(c, s, e, peer);
    var turn := TurnPlayed(plan, c, d, t, peer, k1, b);
    PlaySingle(c, s, e, peer);
    PlayConcat(c, s, [e], turn, peer);
    events := [e] + turn;
  }

  // ------------------------------------------------------------- what was reached

  // The goal is reached with exactly the planned ones of the four facts.
  ghost predicate FactsAre(c: Config, s: Owner, plan: Plan) {
    && ObjectiveComplete(c, s) && s.ev.baseline.Some? && s.ev.turn.Some?
    && (LinkMenuReady in s.flags <==> plan.menu) && (ColosseumReached in s.flags <==> plan.room)
    && (s.ev.baseline.value.seqNo < s.ev.turn.value.exchangeSeq <==> plan.timely)
    && (c.checkpoint == RoomReturnGoal ==>
          s.ev.room.Some? && (s.ev.room.value.end.seqNo < s.ev.room.value.returnSeq <==> plan.tidy))
  }

  // The frozen evidence is of a turn against `d` in which both sides missed.
  ghost predicate Faces(c: Config, d: Config, s: Owner)
    requires Built(c) && Built(d)
  {
    && s.ev.baseline.Some? && s.ev.turn.Some?
    && s.ev.baseline.value == BaselineOf(c, d, s.ev.baseline.value.seqNo)
    && s.ev.turn.value == TurnOf(c, d, s.ev.turn.value.exchangeSeq, s.ev.turn.value.settledSeq)
  }

  lemma SettledFacts(plan: Plan, c: Config, d: Config, s: Owner, k: Mark)
    requires Built(c) && Built(d) && Ready(plan, c, d, k) && Stage(s, TurnMark(plan, c, d, k))
    ensures Faces(c, d, s) && (c.checkpoint == SettledTurnGoal ==> FactsAre(c, s, plan))
    ensures var t := TurnMark(plan, c, d, k);
      && t.ev.turn.Some? && t.ev.room.None? && RunA !in t.sent && PartyCancelled in t.flags
      && t.next <= 100 && t.seqNo <= 40 && t.pulses < 10
      && PartyQualified in s.flags && MoveReady in s.flags && SettledTurn in s.flags
  {
    hide Built, Quantity, Spent, Lead;
  }

  lemma HomeFacts(plan: Plan, c: Config, d: Config, s: Owner, k: Mark)
    requires Built(c) && Built(d) && Healable(c.before) && Ready(plan, c, d, k)
    requires c.checkpoint == RoomReturnGoal && Stage(s, HomeMark(plan, c, TurnMark(plan, c, d, k)))
    ensures Faces(c, d, s) && FactsAre(c, s, plan) && PartyQualified in s.flags && SettledTurn in s.flags
  {
    hide Built, Quantity, Spent, Lead, Healed;
  }
}
