// Which button a trade owner presses on each screen, told by cursors, facings and frames:
// a cursor press always moves towards the target, and A is pressed only on it
// (scripts/_timed_trade_probe.py).
module TradeScreens {
  import opened Common
  import opened TradeRules
  import opened TradeProtocol
  import opened Interleaving

  // ------------------------------------------------------------- the screen shown

  // The screen the owner believes to be shown after a hook, and whether it is polled.
  lemma ScreenAfter(c: Config, s: Owner, h: Hook, m: Memory, peer: set<Phase>)
    requires Qualified(c)
    ensures var t := Step(c, s, Observed(h, m), peer).screen;
      && (h == LinkMenuWait ==> t.context == Some(Link) && t.poll == None)
      && (h == LinkMenuDone || h == SpecialWarp ==> t.context == Some(Warp) && t.poll == None)
      && (h == LeftGameboy || h == RightGameboy ==> t.context == Some(Dialogue) && t.poll == None)
      && (h == DoBattleOrTrade ==> t.context == Some(ExchangeWait)) && (h == SelectMon ==> t.context == Some(SelectSetup))
      && (h == PartyMenuInput ==> t.context == Some(PartyMenu) && t.poll == None)
      && (h == ChosePlayerMon ==> t.context == Some(SubmenuSetup)) && (h == SelectStats ==> t.context == Some(Stats) && t.poll == None)
      && (h == SelectTrade ==> t.context == Some(TradeChoice) && t.poll == None)
      && (h == ChoseTrade ==> t.context == Some(SelectionExchange)) && (h == TradeConfirmed ==> t.context == Some(TradeRunning))
      && (h == TradeCenterTrade ==> t.context == Some(ConfirmationSetup) && t.poll == None)
      && (h == TwoOptionMenu ==>
            t.context == if s.screen.context == Some(ConfirmationSetup) && m.twoOptionMenu == 5 then Some(Confirmation) else s.screen.context)
      && (h == HandleMenuInput ==> t.context == s.screen.context && t.poll == s.screen.context)
      && t.saves == s.screen.saves + (if h == SaveGameData then 1 else 0)
      && t.serials == s.screen.serials + (if h == SerialExchange then 1 else 0)
  {
    hide Observe, Qualified;
  }

  // ---------------------------------------------------------------- one decision

  // Nothing holds the owner back from an input in this frame.
  predicate Free(c: Config, s: Owner, frame: int, peer: set<Phase>) {
    && s.error.None? && s.inputs.nextInput <= frame && PartyQualified in peer && CycleReturned !in s.flags && s.ev.copy.None?
    && (c.checkpoint == SelectMonGoal ==> SelectMonReady !in s.flags)
  }

  function Asked(c: Config, s: Owner, frame: int, m: Memory, peer: set<Phase>): Option<Press> {
    Decide(c, s, frame, m, peer).press
  }

  // The press of a button, held so long, and when the next input may come.
  ghost predicate Sends(c: Config, s: Owner, frame: int, m: Memory, peer: set<Phase>, b: Button, hold: int, gap: int, once: Option<Once>) {
    && Asked(c, s, frame, m, peer) == Some(Press(frame, b, hold, once))
    && Decide(c, s, frame, m, peer).fault == None && Decide(c, s, frame, m, peer).inputs.nextInput == frame + gap
    && !Decide(c, s, frame, m, peer).raised
    && (once.Some? ==> once.value in Decide(c, s, frame, m, peer).inputs.sent)
  }

  ghost predicate Waits(c: Config, s: Owner, frame: int, m: Memory, peer: set<Phase>) {
    Asked(c, s, frame, m, peer) == None && Decide(c, s, frame, m, peer).fault == None && !Decide(c, s, frame, m, peer).raised
  }

  // An owner that is not free asks for nothing.
  lemma HeldBack(c: Config, s: Owner, frame: int, m: Memory, peer: set<Phase>)
    requires !Free(c, s, frame, peer)
    ensures Asked(c, s, frame, m, peer) == None
  {
    hide DecideOnScreen;
  }

  predicate Budget(s: Owner, kind: Kind, screen: Option<Context>, limit: nat) {
    (if Quota(kind, screen) in s.inputs.attempts then s.inputs.attempts[Quota(kind, screen)] else 0) < limit
  }

  predicate On(s: Owner, screen: Context) { s.screen.context == Some(screen) && s.screen.poll == Some(screen) }

  // The link menu: up to its first entry, on it once both announced it.
  lemma OnLinkMenu(c: Config, s: Owner, frame: int, m: Memory, peer: set<Phase>)
    requires s.screen.context == Some(Link) && Free(c, s, frame, peer) && Budget(s, Cursor, Some(Link), 12)
    ensures var entries := if c.version == Yellow then 3 else 2;
      var shown := m.maxItem as int == entries && m.item as int <= entries && m.watchedKeys % 2 == 1;
      && (!shown ==> Waits(c, s, frame, m, peer))
      && (shown && m.item != 0 ==> Sends(c, s, frame, m, peer, Up, 12, 40, None))
      && (shown && m.item == 0 ==> LinkMenuReady in Decide(c, s, frame, m, peer).published)
      && (shown && m.item == 0 && LinkMenuReady !in peer ==> Waits(c, s, frame, m, peer))
      && (shown && m.item == 0 && LinkMenuReady in peer && LinkA !in s.inputs.sent ==>
            Sends(c, s, frame, m, peer, A, 4, 20, Some(LinkA)) && LinkMenuApplied in Decide(c, s, frame, m, peer).published)
  {
  }

  // The party screen is up, with its cursor on a member.
  predicate PartyShown(c: Config, m: Memory) {
    m.maxItem as int == c.before.count && m.watchedKeys == 0x91 && m.whichMenu == 0 && m.topX == 1 && m.topY == 1
    && m.item < m.maxItem
  }

  // The party screen: announced, then towards the outgoing member once the peer is there
  // too, then A on it once both announced their choice.
  lemma OnPartyMenu(c: Config, s: Owner, frame: int, m: Memory, peer: set<Phase>)
    requires On(s, PartyMenu) && Free(c, s, frame, peer) && Budget(s, Cursor, Some(PartyMenu), 12)
    ensures !PartyShown(c, m) ==> Waits(c, s, frame, m, peer)
    ensures PartyShown(c, m) ==> SelectMonReady in Decide(c, s, frame, m, peer).published
    ensures PartyShown(c, m) && (c.checkpoint == SelectMonGoal || SelectMonReady !in peer) ==> Waits(c, s, frame, m, peer)
    ensures PartyShown(c, m) && c.checkpoint == ExchangeGoal && SelectMonReady in peer ==>
      && (m.item as int < c.slot ==> Sends(c, s, frame, m, peer, Down, 2, 4, None))
      && (m.item as int > c.slot ==> Sends(c, s, frame, m, peer, Up, 2, 4, None))
      && (m.item as int == c.slot ==> OutgoingSlotReady in Decide(c, s, frame, m, peer).published)
      && (m.item as int == c.slot && OutgoingSlotReady !in peer ==> Waits(c, s, frame, m, peer))
      && (m.item as int == c.slot && OutgoingSlotReady in peer && PartyA !in s.inputs.sent ==>
            Sends(c, s, frame, m, peer, A, 4, 20, Some(PartyA)))
  {
  }

  // The two entries of the member's menu: right from STATS, A on TRADE.
  lemma OnSubmenu(c: Config, s: Owner, frame: int, m: Memory, peer: set<Phase>)
    requires Free(c, s, frame, peer)
    ensures var shown := m.item == 0 && m.maxItem == 0 && m.topY == 16;
      var stats, choice := shown && m.watchedKeys == 0x13 && m.topX == 1, shown && m.watchedKeys == 0x23 && m.topX == 11;
      && (On(s, Stats) && stats && StatsRight !in s.inputs.sent ==> Sends(c, s, frame, m, peer, Right, 12, 20, Some(StatsRight)))
      && (On(s, Stats) && !stats ==> Waits(c, s, frame, m, peer))
      && (On(s, TradeChoice) && choice && TradeA !in s.inputs.sent ==> Sends(c, s, frame, m, peer, A, 4, 20, Some(TradeA)))
      && (On(s, TradeChoice) && !choice ==> Waits(c, s, frame, m, peer))
  {
  }

  // The confirmation: up to its first entry, then A, for the member that was chosen.
  lemma OnConfirmation(c: Config, s: Owner, frame: int, m: Memory, peer: set<Phase>)
    requires On(s, Confirmation) && Free(c, s, frame, peer) && Budget(s, Cursor, Some(Confirmation), 12)
    ensures var shown := m.maxItem == 1 && m.watchedKeys == 3 && m.tradingMon as int == c.slot && m.item <= 1;
      && (!shown ==> Waits(c, s, frame, m, peer))
      && (shown && m.item == 1 ==> Sends(c, s, frame, m, peer, Up, 2, 4, None))
      && (shown && m.item == 0 && ConfirmA !in s.inputs.sent ==> Sends(c, s, frame, m, peer, A, 4, 20, Some(ConfirmA)))
  {
  }

  lemma OnDialogue(c: Config, s: Owner, frame: int, m: Memory, peer: set<Phase>)
    requires s.screen.context == Some(Dialogue) && Free(c, s, frame, peer) && Budget(s, Talk, Some(Dialogue), 32)
    ensures Sends(c, s, frame, m, peer, A, 4, 20, None)
  {
  }

  // In the room: at the role's place, turned to the machine first, then A.
  lemma InTheRoom(c: Config, s: Owner, frame: int, m: Memory, peer: set<Phase>)
    requires (s.screen.context.None? || s.screen.context == Some(Warp)) && Free(c, s, frame, peer)
    requires Budget(s, HiddenEvent, s.screen.context, 6) && m.curMap == 0xEF && TradeCenterReached in peer
    ensures TradeCenterReached in Decide(c, s, frame, m, peer).published
    ensures m.linkState != 1 ==> Waits(c, s, frame, m, peer)
    ensures m.linkState == 1 && m.serialRole != 1 && m.serialRole != 2 ==>
      Asked(c, s, frame, m, peer) == None && Decide(c, s, frame, m, peer).raised
    ensures m.linkState == 1 && (m.serialRole == 1 || m.serialRole == 2) ==>
      var internal := m.serialRole == 2;
      var placed := m.joyIgnore == 0 && m.walkCounter == 0 && m.statusFlags5 / 0x80 % 2 == 0 && m.statusFlags5 / 4 % 2 == 0
        && m.x == (if internal then 3 else 6) && m.y == 4;
      && (!placed ==> Waits(c, s, frame, m, peer))
      && (placed && internal && m.facing != 0x0C ==> Sends(c, s, frame, m, peer, Right, 8, 30, None))
      && (placed && !internal && m.facing != 0x08 ==> Sends(c, s, frame, m, peer, Left, 8, 30, None))
      && (placed && m.facing == (if internal then 0x0C else 0x08) ==> Sends(c, s, frame, m, peer, A, 4, 20, None))
  {
  }

  // Before any screen is known: three steps up to the counter, then A, until the game is
  // saved or the link begins.
  lemma OnTheWay(c: Config, s: Owner, frame: int, m: Memory, peer: set<Phase>)
    requires s.screen.context.None? && Free(c, s, frame, peer) && m.curMap != 0xEF && TradeCenterReached !in s.flags
    requires Budget(s, Approach, None, 3) && Budget(s, Talk, None, 32)
    ensures s.screen.saves != 0 || s.screen.serials != 0 ==> Waits(c, s, frame, m, peer)
    ensures s.screen.saves == 0 && s.screen.serials == 0 && s.inputs.approachSteps < 3 ==>
      Sends(c, s, frame, m, peer, Up, 6, 20, None)
      && Decide(c, s, frame, m, peer).inputs.approachSteps == s.inputs.approachSteps + 1
    ensures s.screen.saves == 0 && s.screen.serials == 0 && s.inputs.approachSteps >= 3 ==>
      Sends(c, s, frame, m, peer, A, 4, 40, None)
  {
  }

  // On every other screen nothing is pressed.
  lemma OtherScreensWait(c: Config, s: Owner, frame: int, m: Memory, peer: set<Phase>)
    requires s.screen.context.Some?
    requires s.screen.context.value in {ExchangeWait, SelectSetup, SubmenuSetup, SelectionExchange, ConfirmationSetup, TradeRunning}
      || (s.screen.context.value in {PartyMenu, Stats, TradeChoice, Confirmation} && s.screen.poll != s.screen.context)
    ensures Asked(c, s, frame, m, peer) == None
  {
  }

  // ------------------------------------------------------------ towards the target

  function Distance(a: int, b: int): nat { if a <= b then b - a else a - b }

  function CursorAfter(b: Button, item: int): int { if b == Down then item + 1 else if b == Up then item - 1 else item }

  // Whatever the owner, the frame and the memory: a press on a list brings its cursor one
  // nearer to the target, or is A under its own name and the cursor is on it.
  lemma PressesApproach(c: Config, s: Owner, frame: int, m: Memory, peer: set<Phase>)
    requires s.screen.context in {Some(Link), Some(PartyMenu), Some(Confirmation)}
    requires Asked(c, s, frame, m, peer).Some?
    ensures var p := Asked(c, s, frame, m, peer).value;
      var target := if s.screen.context == Some(PartyMenu) then c.slot else 0;
      if p.button == A then m.item as int == target && p.once.Some?
      else p.once == None && Distance(CursorAfter(p.button, m.item as int), target) == Distance(m.item as int, target) - 1
  {
  }
}
