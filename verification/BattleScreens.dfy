// Which button a battle owner presses on each screen, told by cursors, facings and
// frames: a cursor press always moves towards the target, and A is pressed only on it
// (scripts/_timed_battle_probe.py).
module BattleScreens {
  import opened Common
  import opened BattleRules
  import opened BattleProtocol
  import opened Interleaving
  import opened BattlePair
  import opened BattleScript

  // ------------------------------------------------------------- the screen shown

  // The screen the owner believes to be shown after a hook, and whether it is polled.
  lemma ScreenAfter(c: Config, s: Owner, h: Hook, m: Memory, peer: set<Phase>)
    requires s.error.None? && !s.closed && 0 <= s.sequence < 1000
    ensures var t := Step(c, s, Observed(h, m), peer).screen;
      && (h == LinkMenuWait ==> t.context == Some(Link) && t.poll == None)
      && (h == LinkMenuDone || h == SpecialWarp ==> t.context == Some(Warp) && t.poll == None)
      && (h == LeftGameboy || h == RightGameboy ==> t.context == Some(Dialogue) && t.poll == None)
      && (h == DoBattleOrTrade || h == LinkBattleExchange ==> t.context == Some(ExchangeWait) && t.poll == None)
      && (h == DisplayBattleMenu ==> t.context == Some(Battle) && t.poll == None)
      && (h == MoveSelectionMenu ==> t.context == Some(MoveMenu) && t.poll == None)
      && (h == HandlePartyMenuInput ==> t.context == Some(PartyMenu) && t.poll == if InspectA in s.inputs.sent then Some(PartyMenu) else None)
      && (h == EndOfBattle ==> t.context == Some(Ending)) && (h == ReturnToRoom ==> t.context == Some(Returning))
      && (h == HandleMenuInput ==> t.context == s.screen.context && t.poll == s.screen.context)
      && t.saves == s.screen.saves + (if h == SaveGameData then 1 else 0)
      && t.serials == s.screen.serials + (if h == SerialExchange then 1 else 0)
  {
    hide Observe;
  }

  // ---------------------------------------------------------------- one decision

  // Nothing holds the owner back from an input in this frame.
  predicate Free(c: Config, s: Owner, frame: int, peer: set<Phase>) {
    && s.error.None? && !s.closed && 0 <= frame <= MAX_SEQUENCE && s.inputs.nextInput <= frame
    && PartyQualified in peer
    && (c.checkpoint == SettledTurnGoal ==> s.ev.turn.None?) && (c.checkpoint == RoomReturnGoal ==> s.ev.room.None?)
  }

  // What an owner asks for in one frame.
  function Asked(c: Config, s: Owner, frame: int, m: Memory, peer: set<Phase>): Option<Press> {
    Decide(c, s, frame, m, peer).press
  }

  // The press of a button, held so long, and when the next input may come.
  ghost predicate Sends(c: Config, s: Owner, frame: int, m: Memory, peer: set<Phase>, b: Button, hold: int, gap: int, once: Option<Once>) {
    && Asked(c, s, frame, m, peer) == Some(Press(frame, b, hold, once))
    && Decide(c, s, frame, m, peer).fault == None && Decide(c, s, frame, m, peer).inputs.nextInput == frame + gap
    && (once.Some? ==> once.value in Decide(c, s, frame, m, peer).inputs.sent)
  }

  ghost predicate Waits(c: Config, s: Owner, frame: int, m: Memory, peer: set<Phase>) {
    Asked(c, s, frame, m, peer) == None && Decide(c, s, frame, m, peer).fault == None
  }

  // An owner that is not free asks for nothing.
  lemma HeldBack(c: Config, s: Owner, frame: int, m: Memory, peer: set<Phase>)
    requires !Free(c, s, frame, peer)
    ensures Asked(c, s, frame, m, peer) == None
  {
    hide DecideOnScreen;
  }

  predicate Budget(s: Owner, q: Quota, limit: nat) { (if q in s.inputs.attempts then s.inputs.attempts[q] else 0) < limit }

  predicate On(s: Owner, screen: Context) { s.screen.context == Some(screen) && s.screen.poll == Some(screen) }

  predicate AWatched(m: Memory) { m.watchedKeys % 2 == 1 }

  // The move menu: towards the chosen move, and A on it once both announced it.
  lemma OnMoveMenu(c: Config, s: Owner, frame: int, m: Memory, peer: set<Phase>)
    requires On(s, MoveMenu) && Free(c, s, frame, peer) && Budget(s, InContext(MoveMenu), 16)
    ensures var target := c.chosen.slot + 1;
      && (!AWatched(m) || !(1 <= m.item <= 4) ==> Waits(c, s, frame, m, peer))
      && (AWatched(m) && 1 <= m.item <= 4 ==>
            && (m.disabledMove as int / 16 == target ==> Decide(c, s, frame, m, peer).fault == Some(MoveDisabled))
            && (m.disabledMove as int / 16 != target ==>
                  && (m.item as int < target ==> Sends(c, s, frame, m, peer, Down, 2, 20, None))
                  && (m.item as int > target ==> Sends(c, s, frame, m, peer, Up, 2, 20, None))
                  && (m.item as int == target ==> MoveReady in Decide(c, s, frame, m, peer).published)
                  && (m.item as int == target && MoveReady in peer && MoveA !in s.inputs.sent ==>
                        Sends(c, s, frame, m, peer, A, 2, 20, Some(MoveA)))
                  && (m.item as int == target && MoveReady !in peer ==> Waits(c, s, frame, m, peer))))
  {
  }

  // The link menu: towards its second entry, on it once both announced it.
  lemma OnLinkMenu(c: Config, s: Owner, frame: int, m: Memory, peer: set<Phase>)
    requires s.screen.context == Some(Link) && Free(c, s, frame, peer) && Budget(s, InContext(Link), 16)
    ensures var shown := m.maxItem as int == (if c.version == Yellow then 3 else 2) && AWatched(m);
      && (!shown ==> Waits(c, s, frame, m, peer))
      && (shown && m.item == 0 ==> Sends(c, s, frame, m, peer, Down, 2, 20, None))
      && (shown && m.item > 1 ==> Sends(c, s, frame, m, peer, Up, 2, 20, None))
      && (shown && m.item == 1 ==> LinkMenuReady in Decide(c, s, frame, m, peer).published)
      && (shown && m.item == 1 && LinkMenuReady in peer && LinkA !in s.inputs.sent ==>
            Sends(c, s, frame, m, peer, A, 2, 20, Some(LinkA)))
      && (shown && m.item == 1 && LinkMenuReady !in peer ==> Waits(c, s, frame, m, peer))
  {
  }

  // The entry wanted on the battle menu, as column and row: FIGHT is left above, the
  // party right above, RUN right below.
  datatype Wanted = Wanted(column: int, row: int, once: Once)

  function WantedEntry(s: Owner, peer: set<Phase>): Option<Wanted> {
    if s.ev.turn.Some? then if SettledTurn in peer then Some(Wanted(1, 1, RunA)) else None
    else if PartyInspected !in s.flags then Some(Wanted(1, 0, InspectA))
    else if PartyCancelled in s.flags && PartyCancelled in peer then Some(Wanted(0, 0, FightA))
    else None
  }

  // The battle menu: first to the wanted column, then to the wanted row, then A.
  lemma OnBattleMenu(c: Config, s: Owner, frame: int, m: Memory, peer: set<Phase>)
    requires On(s, Battle) && Free(c, s, frame, peer) && Budget(s, InContext(Battle), 16)
    ensures var w := WantedEntry(s, peer);
      var shown := m.maxItem == 1 && m.topY == 14 && (m.topX == 9 || m.topX == 15) && m.item <= 1;
      && (!shown || w.None? ==> Waits(c, s, frame, m, peer))
      && (shown && w.Some? ==>
            && (w.value.column == 1 && m.topX == 9 ==> Sends(c, s, frame, m, peer, Right, 2, 20, None))
            && (w.value.column == 0 && m.topX == 15 ==> Sends(c, s, frame, m, peer, Left, 2, 20, None))
            && (w.value.column == (if m.topX == 9 then 0 else 1) ==>
                  && (w.value.row > m.item as int ==> Sends(c, s, frame, m, peer, Down, 2, 20, None))
                  && (w.value.row < m.item as int ==> Sends(c, s, frame, m, peer, Up, 2, 20, None))
                  && (w.value.row == m.item as int && AWatched(m) && w.value.once !in s.inputs.sent ==>
                        Sends(c, s, frame, m, peer, A, 2, 20, Some(w.value.once)))
                  && (w.value.row == m.item as int && !AWatched(m) ==> Waits(c, s, frame, m, peer))))
  {
  }

  // The party screen is left again, the dialogue confirmed.
  lemma OnPartyAndDialogue(c: Config, s: Owner, frame: int, m: Memory, peer: set<Phase>)
    requires Free(c, s, frame, peer)
    ensures On(s, PartyMenu) && m.partyMenuType == 0 && m.watchedKeys == 3 && m.maxItem as int == c.before.count - 1 ==>
      (Budget(s, InContext(PartyMenu), 16) && PartyB !in s.inputs.sent ==> Sends(c, s, frame, m, peer, B, 2, 20, Some(PartyB)))
    ensures On(s, PartyMenu) && !(m.partyMenuType == 0 && m.watchedKeys == 3 && m.maxItem as int == c.before.count - 1) ==>
      Waits(c, s, frame, m, peer)
    ensures s.screen.context == Some(Dialogue) && Budget(s, InContext(Dialogue), 40) ==> Sends(c, s, frame, m, peer, A, 2, 20, None)
  {
  }

  // In the room: at the role's place, turned to the machine first, then A. The facing
  // is right for the internal role, where RIGHT gives it, and left for the external one.
  lemma InTheRoom(c: Config, s: Owner, frame: int, m: Memory, peer: set<Phase>)
    requires (s.screen.context.None? || s.screen.context == Some(Warp)) && Free(c, s, frame, peer) && Budget(s, HiddenEvent, 6)
    requires m.curMap == 240 && m.linkState == 1
    ensures ColosseumReached in Decide(c, s, frame, m, peer).published
    ensures ColosseumReached !in peer ==> Waits(c, s, frame, m, peer)
    ensures ColosseumReached in peer && m.serialRole != 1 && m.serialRole != 2 ==>
      Decide(c, s, frame, m, peer).fault == Some(SerialRole)
    ensures ColosseumReached in peer && (m.serialRole == 1 || m.serialRole == 2) ==>
      var internal := m.serialRole == 2;
      var placed := m.joyIgnore == 0 && m.walkCounter == 0 && m.statusFlags5 / 0x80 % 2 == 0 && m.statusFlags5 / 4 % 2 == 0
        && m.x == (if internal then 3 else 6) && m.y == 4;
      && (!placed ==> Waits(c, s, frame, m, peer))
      && (placed && internal && m.facing != 0x0C ==> Sends(c, s, frame, m, peer, Right, 8, 30, None))
      && (placed && !internal && m.facing != 0x08 ==> Sends(c, s, frame, m, peer, Left, 8, 30, None))
      && (placed && m.facing == (if internal then 0x0C else 0x08) ==> Sends(c, s, frame, m, peer, A, 4, 20, None))
  {
  }

  // Before any screen is known: three steps up to the counter, then A, until the game is
  // saved or the link begins.
  lemma OnTheWay(c: Config, s: Owner, frame: int, m: Memory, peer: set<Phase>)
    requires s.screen.context.None? && Free(c, s, frame, peer) && Budget(s, Approach, 40)
    requires m.curMap != 240 && ColosseumReached !in s.flags
    ensures s.screen.saves != 0 || s.screen.serials != 0 ==> Waits(c, s, frame, m, peer)
    ensures s.screen.saves == 0 && s.screen.serials == 0 ==>
      Sends(c, s, frame, m, peer, if s.inputs.approachSteps < 3 then Up else A, 2, 20, None)
      && Decide(c, s, frame, m, peer).inputs.approachSteps
         == s.inputs.approachSteps + if s.inputs.approachSteps < 3 then 1 else 0
  {
  }

  // On every other screen nothing is pressed.
  lemma OtherScreensWait(c: Config, s: Owner, frame: int, m: Memory, peer: set<Phase>)
    requires s.screen.context.Some?
    requires s.screen.context.value in {ExchangeWait, Ending, Returning}
      || (s.screen.context.value in {PartyMenu, Battle, MoveMenu} && s.screen.poll != s.screen.context)
    ensures Asked(c, s, frame, m, peer) == None
  {
  }

  // ------------------------------------------------------------ towards the target

  function Distance(a: int, b: int): nat { if a <= b then b - a else a - b }

  // Where a cursor key takes the cursor of a list.
  function CursorAfter(b: Button, item: int): int { if b == Down then item + 1 else if b == Up then item - 1 else item }

  // Whatever the owner, the frame and the memory: a press on the move menu or the link
  // menu brings the cursor one nearer to its target, or is A and the cursor is on it.
  lemma PressesApproach(c: Config, s: Owner, frame: int, m: Memory, peer: set<Phase>)
    requires s.screen.context == Some(MoveMenu) || s.screen.context == Some(Link)
    requires Asked(c, s, frame, m, peer).Some?
    ensures var p := Asked(c, s, frame, m, peer).value;
      var target := if s.screen.context == Some(Link) then 1 else c.chosen.slot + 1;
      if p.button == A then m.item as int == target && p.once.Some?
      else p.once == None && Distance(CursorAfter(p.button, m.item as int), target) == Distance(m.item as int, target) - 1
  {
  }

  // The frame's decision over a cursor off the target: one press, everything else alone.
  lemma OnePress(c: Config, s: Owner, frame: int, m: Memory, peer: set<Phase>, n: nat)
    requires On(s, MoveMenu) && Free(c, s, frame, peer) && 1 <= n <= 16 && Budget(s, InContext(MoveMenu), 16 - n)
    requires AWatched(m) && 1 <= m.item <= 4 && m.item as int != c.chosen.slot + 1
    requires m.disabledMove as int / 16 != c.chosen.slot + 1
    ensures var t := Step(c, s, Deciding(frame, m), peer);
      && t.error.None? && !t.closed && t.ev == s.ev && t.screen == s.screen && t.sequence == s.sequence
      && t.flags - {ColosseumReached} == s.flags - {ColosseumReached}
      && t.inputs.nextInput == frame + 20 && t.inputs.sent == s.inputs.sent && Budget(t, InContext(MoveMenu), 16 - (n - 1))
  {
  }

  // An obedient move menu, whose cursor goes where each press takes it: press by press,
  // twenty frames apart, the cursor reaches the chosen move, within the budget.
  lemma {:induction false} CursorArrives(c: Config, s: Owner, frame: int, m: Memory, peer: set<Phase>, item: Byte, n: nat)
    returns (events: seq<Event>)
    requires On(s, MoveMenu) && Free(c, s, frame, peer) && frame <= MAX_SEQUENCE - 20 * (n + 1)
    requires 0 <= c.chosen.slot <= 3 && 1 <= item <= 4 && AWatched(m) && m.disabledMove as int / 16 != c.chosen.slot + 1
    requires n == Distance(item as int, c.chosen.slot + 1) && Budget(s, InContext(MoveMenu), 16 - n)
    ensures |events| == n
    ensures forall i :: 0 <= i < n ==>
      events[i] == Deciding(frame + 20 * i, m.(item := if item as int < c.chosen.slot + 1 then item + i else item - i))
    ensures var t := Play(c, s, events, peer);
      && t.error.None? && t.ev == s.ev && On(t, MoveMenu) && t.inputs.sent == s.inputs.sent
      && t.flags - {ColosseumReached} == s.flags - {ColosseumReached} && Free(c, t, frame + 20 * n, peer)
    decreases n
  {
    events := [];
    if n > 0 {
      var up := item as int > c.chosen.slot + 1;
      var e := Deciding(frame, m.(item := item));
      OnePress(c, s, frame, m.(item := item), peer, n);
      var t := Step(c, s, e, peer);
      hide Step, Budget;
      var rest := CursorArrives(c, t, frame + 20, m, peer, if up then item - 1 else item + 1, n - 1);
      PlaySingle(c, s, e, peer);
      PlayConcat(c, s, [e], rest, peer);
      events := [e] + rest;
      hide Play;
    }
  }
}
