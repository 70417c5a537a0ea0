// What the hooks of a turn leave behind, for every way the two sides can act: any damages
// within the hit points, double hits, misses, full paralysis and changes of status
// (scripts/_timed_battle_probe.py).
module BattleTurns {
  import opened Common
  import opened BattleRules
  import opened BattleProtocol
  import opened Interleaving
  import opened BattleInvariants
  import opened BattlePair
  import opened BattleScript

  // ------------------------------------------------------- one hook at a time

  // Listening, with room for so many more events.
  predicate Awake(s: Owner, n: nat) { s.error.None? && !s.closed && 0 <= s.sequence && s.sequence + n < MAX_SEQUENCE }

  predicate InTurn(s: Owner) { s.ev.exchange.Some? && s.ev.turn.None? }

  // The ledger of the side that acts; `own` is the owner's side.
  function LedgerOf(ev: Evidence, own: bool): Ledger { if own then ev.local else ev.enemy }

  function Booked(s: Owner, own: bool, l: Ledger): Owner {
    s.(sequence := s.sequence + 1, ev := if own then s.ev.(local := l) else s.ev.(enemy := l))
  }

  function ExecuteHook(own: bool): Hook { if own then PlayerCanExecute else EnemyCanExecute }
  function ParalysisHook(own: bool): Hook { if own then LocalParalyzed else EnemyParalyzed }
  function ApplyHook(own: bool): Hook { if own then ApplyDamageToEnemy else ApplyDamageToPlayer }
  function AppliedHook(own: bool): Hook { if own then AttackOnEnemyDone else AttackOnPlayerDone }
  function DoneHook(own: bool): Hook { if own then PlayerMoveDone else EnemyMoveDone }

  // Hit points of the side that is acted upon.
  function TargetHp(own: bool, m: Memory): Word { if own then m.enemy.hp else m.local.hp }

  lemma Executes(c: Config, s: Owner, own: bool, m: Memory, peer: set<Phase>)
    requires Awake(s, 1) && InTurn(s)
    ensures var l := LedgerOf(s.ev, own);
      Step(c, s, Observed(ExecuteHook(own), m), peer) == Booked(s, own, l.(action := l.action.(executed := true)))
  {
  }

  // A side that cannot move is marked as such, if it is its turn.
  lemma IsParalysed(c: Config, s: Owner, own: bool, m: Memory, peer: set<Phase>)
    requires Awake(s, 1) && InTurn(s)
    ensures var l, t := LedgerOf(s.ev, own), Step(c, s, Observed(ParalysisHook(own), m), peer);
      && (m.whoseTurn as int == (if own then 0 else 1) ==>
            t == Booked(s, own, l.(action := l.action.(skip := FullyParalyzed))))
      && (m.whoseTurn as int != (if own then 0 else 1) ==> t == Booked(s, own, l).(error := Some(ParalysisTurnMismatch)))
  {
    if own { ParalysisOwn(c, s, m, peer); } else { ParalysisFoe(c, s, m, peer); }
    hide Step;
  }

  lemma ParalysisOwn(c: Config, s: Owner, m: Memory, peer: set<Phase>)
    requires Awake(s, 1) && InTurn(s)
    ensures var l, t := s.ev.local, Step(c, s, Observed(LocalParalyzed, m), peer);
      t == if m.whoseTurn == 0 then Booked(s, true, l.(action := l.action.(skip := FullyParalyzed)))
           else Booked(s, true, l).(error := Some(ParalysisTurnMismatch))
  {
  }

  lemma ParalysisFoe(c: Config, s: Owner, m: Memory, peer: set<Phase>)
    requires Awake(s, 1) && InTurn(s)
    ensures var l, t := s.ev.enemy, Step(c, s, Observed(EnemyParalyzed, m), peer);
      t == if m.whoseTurn == 1 then Booked(s, false, l.(action := l.action.(skip := FullyParalyzed)))
           else Booked(s, false, l).(error := Some(ParalysisTurnMismatch))
  {
  }

  // Damage about to be applied: the target's hit points are taken down, once.
  lemma Opens(c: Config, s: Owner, own: bool, m: Memory, peer: set<Phase>)
    requires Awake(s, 1) && InTurn(s)
    ensures var l, t := LedgerOf(s.ev, own), Step(c, s, Observed(ApplyHook(own), m), peer);
      if l.pending.Some? then t == Booked(s, own, l).(error := Some(OverlappingDamage))
      else t == Booked(s, own, l.(pending := Some(Pending(TargetHp(own, m), m.damage))))
  {
  }

  // Damage applied: one more sample, of the hit points taken down and those left now.
  lemma Closes(c: Config, s: Owner, own: bool, m: Memory, peer: set<Phase>)
    requires Awake(s, 1) && InTurn(s)
    ensures var l, t := LedgerOf(s.ev, own), Step(c, s, Observed(AppliedHook(own), m), peer);
      if l.pending.None? || !l.action.executed then t == Booked(s, own, l).(error := Some(DamageWithoutApplication))
      else if |l.action.samples| >= 2 then t == Booked(s, own, l).(error := Some(DamageCount))
      else
        var taken := Sample(l.pending.value.beforeHp, l.pending.value.damage, TargetHp(own, m), m.moveMissed);
        t == Booked(s, own, WithSamples(l, [taken]).(pending := None))
  {
  }

  lemma Finishes(c: Config, s: Owner, own: bool, m: Memory, peer: set<Phase>)
    requires Awake(s, 1) && InTurn(s)
    ensures var l := LedgerOf(s.ev, own);
      Step(c, s, Observed(DoneHook(own), m), peer)
        == Booked(s, own, l.(action := l.action.(done := true, moveMissed := Some(m.moveMissed))))
  {
  }

  // The own PP cell is entered only while the own move executes.
  lemma EntersPp(c: Config, s: Owner, m: Memory, peer: set<Phase>)
    requires Awake(s, 1) && InTurn(s)
    ensures var l, t := s.ev.local, Step(c, s, Observed(DecrementPp, m), peer);
      if m.whoseTurn != 0 then t == Booked(s, true, l)
      else if !l.action.executed || l.action.done then t == Booked(s, true, l).(error := Some(PpOutsideExecution))
      else t == Booked(s, true, l).(ev := s.ev.(ppEntries := s.ev.ppEntries + 1))
  {
  }

  // ----------------------------------------------------------- one side's action

  // The game's memory as one side acts: its turn, the target's hit points, the damage.
  function Acting(own: bool, m: Memory, hp: Word, damage: Word, missed: Byte): Memory {
    if own then m.(whoseTurn := 0, enemy := m.enemy.(hp := hp), damage := damage, moveMissed := missed)
    else m.(whoseTurn := 1, local := m.local.(hp := hp), damage := damage, moveMissed := missed)
  }

  // One application of damage, before and after.
  function Hit(own: bool, m: Memory, hp: Word, d: Word): seq<Event>
    requires d <= hp
  {
    [Observed(ApplyHook(own), Acting(own, m, hp, d, 0)), Observed(AppliedHook(own), Acting(own, m, hp - d, d, 0))]
  }

  function Sum(ds: seq<Word>): nat { if ds == [] then 0 else ds[0] + Sum(ds[1..]) }

  function Hits(own: bool, m: Memory, hp: Word, ds: seq<Word>): seq<Event>
    requires Sum(ds) <= hp
  {
    if ds == [] then [] else Hit(own, m, hp, ds[0]) + Hits(own, m, hp - ds[0], ds[1..])
  }

  function SamplesOf(hp: Word, ds: seq<Word>): seq<Sample>
    requires Sum(ds) <= hp
  {
    if ds == [] then [] else [Sample(hp, ds[0], hp - ds[0], 0)] + SamplesOf(hp - ds[0], ds[1..])
  }

  // The ledger after further samples of applied damage.
  function WithSamples(l: Ledger, more: seq<Sample>): Ledger {
    l.(action := l.action.(samples := l.action.samples + more, damageDone := l.action.damageDone + |more|))
  }

  lemma BookedFacts(s: Owner, own: bool, l: Ledger, later: Ledger, n: nat)
    requires Awake(s, n + 1) && InTurn(s)
    ensures var t := Booked(s, own, l);
      && Awake(t, n) && InTurn(t) && LedgerOf(t.ev, own) == l && t.sequence == s.sequence + 1
      && Booked(t, own, later) == Booked(Booked(s, own, later), own, later)
  {
  }

  lemma SampleBooked(l: Ledger, hp: Word, d: Word, after: Word)
    requires l.pending.None?
    ensures var taken := Sample(hp, d, after, 0);
      WithSamples(l.(pending := Some(Pending(hp, d))), [taken]).(pending := None) == WithSamples(l, [taken])
  {
  }

  lemma HitCloses(c: Config, s: Owner, own: bool, m: Memory, hp: Word, d: Word, after: Word, peer: set<Phase>)
    requires Awake(s, 2) && InTurn(s)
    requires var l := LedgerOf(s.ev, own); l.pending.None? && l.action.executed && |l.action.samples| < 2
    ensures var l := LedgerOf(s.ev, own);
      var t, done := Booked(s, own, l.(pending := Some(Pending(hp, d)))), WithSamples(l, [Sample(hp, d, after, 0)]);
      Step(c, t, Observed(AppliedHook(own), Acting(own, m, after, d, 0)), peer) == Booked(Booked(s, own, done), own, done)
  {
    var l := LedgerOf(s.ev, own);
    var open, done := l.(pending := Some(Pending(hp, d))), WithSamples(l, [Sample(hp, d, after, 0)]);
    hide *;
    ActingFields(own, m, after, d, 0);
    BookedFacts(s, own, open, done, 1);
    Closes(c, Booked(s, own, open), own, Acting(own, m, after, d, 0), peer);
    SampleBooked(l, hp, d, after);
  }

  lemma HitOpens(c: Config, s: Owner, own: bool, m: Memory, hp: Word, d: Word, peer: set<Phase>)
    requires Awake(s, 1) && InTurn(s) && LedgerOf(s.ev, own).pending.None?
    ensures Step(c, s, Observed(ApplyHook(own), Acting(own, m, hp, d, 0)), peer)
      == Booked(s, own, LedgerOf(s.ev, own).(pending := Some(Pending(hp, d))))
  {
    hide *;
    ActingFields(own, m, hp, d, 0);
    Opens(c, s, own, Acting(own, m, hp, d, 0), peer);
  }

  // An application over a target of `hp` that loses `d` leaves exactly that sample.
  lemma HitRecorded(c: Config, s: Owner, own: bool, m: Memory, hp: Word, d: Word, peer: set<Phase>)
    requires Awake(s, 2) && InTurn(s) && d <= hp
    requires var l := LedgerOf(s.ev, own); l.pending.None? && l.action.executed && |l.action.samples| < 2
    ensures var l := WithSamples(LedgerOf(s.ev, own), [Sample(hp, d, hp - d, 0)]);
      Play(c, s, Hit(own, m, hp, d), peer) == Booked(Booked(s, own, l), own, l)
  {
    var e := Observed(ApplyHook(own), Acting(own, m, hp, d, 0));
    var f := Observed(AppliedHook(own), Acting(own, m, hp - d, d, 0));
    assert Hit(own, m, hp, d) == [e, f] && Awake(s, 1);
    hide *;
    PlayTwo(c, s, e, f, peer);
    HitOpens(c, s, own, m, hp, d, peer);
    HitCloses(c, s, own, m, hp, d, hp - d, peer);
  }

  lemma ActingFields(own: bool, m: Memory, hp: Word, d: Word, missed: Byte)
    ensures var n := Acting(own, m, hp, d, missed);
      TargetHp(own, n) == hp && n.damage == d && n.moveMissed == missed && n.whoseTurn as int == (if own then 0 else 1)
  {
  }

  // So do several, one after the other.
  lemma {:induction false} HitsRecorded(c: Config, s: Owner, own: bool, m: Memory, hp: Word, ds: seq<Word>, peer: set<Phase>)
    requires Awake(s, 2 * |ds|) && InTurn(s) && Sum(ds) <= hp
    requires var l := LedgerOf(s.ev, own); l.pending.None? && l.action.executed && |l.action.samples| + |ds| <= 2
    ensures var l := WithSamples(LedgerOf(s.ev, own), SamplesOf(hp, ds));
      && |SamplesOf(hp, ds)| == |ds| && |Hits(own, m, hp, ds)| == 2 * |ds|
      && Play(c, s, Hits(own, m, hp, ds), peer) == Booked(s, own, l).(sequence := s.sequence + 2 * |ds|)
    decreases |ds|
  {
    hide Step, Acting;
    if ds != [] {
      var d, rest := ds[0], ds[1..];
      HitRecorded(c, s, own, m, hp, d, peer);
      var t := Play(c, s, Hit(own, m, hp, d), peer);
      HitsRecorded(c, t, own, m, hp - d, rest, peer);
      PlayConcat(c, s, Hit(own, m, hp, d), Hits(own, m, hp - d, rest), peer);
      hide Play;
      assert LedgerOf(s.ev, own).action.samples + SamplesOf(hp, ds)
        == (LedgerOf(s.ev, own).action.samples + [Sample(hp, d, hp - d, 0)]) + SamplesOf(hp - d, rest);
    }
  }

  // How one side acts: held by full paralysis, or moving with these damages. A move
  // without damage has missed.
  datatype Strike = Paralysed | Moves(damages: seq<Word>)

  function DamagesOf(k: Strike): seq<Word> { if k.Moves? then k.damages else [] }

  // The hooks of that action, over a target of `hp`.
  function Strikes(own: bool, k: Strike, m: Memory, hp: Word): seq<Event>
    requires Sum(DamagesOf(k)) <= hp
  {
    var ds := DamagesOf(k);
    var last := Observed(DoneHook(own), Acting(own, m, hp - Sum(ds), 0, if ds == [] then 1 else 0));
    if k == Paralysed then [Observed(ParalysisHook(own), Acting(own, m, hp, 0, 0)), last]
    else Begins(own, m, hp) + Hits(own, m, hp, ds) + [last]
  }

  function Begins(own: bool, m: Memory, hp: Word): seq<Event> {
    var n := Acting(own, m, hp, 0, 0);
    if own then [Observed(ExecuteHook(true), n), Observed(DecrementPp, n)] else [Observed(ExecuteHook(false), n)]
  }

  // What the side's record says of it afterwards.
  function Recorded(k: Strike, hp: Word): Action
    requires Sum(DamagesOf(k)) <= hp
  {
    Action(k.Moves?, true, if k.Moves? then NotSkipped else FullyParalyzed, |DamagesOf(k)|,
           Some(if DamagesOf(k) == [] then 1 else 0), SamplesOf(hp, DamagesOf(k)))
  }

  function Entries(own: bool, k: Strike): nat { if own && k.Moves? then 1 else 0 }

  // The owner after an action: one side's record written, the other side's alone.
  function Struck(s: Owner, own: bool, k: Strike, hp: Word, events: nat): Owner
    requires Sum(DamagesOf(k)) <= hp
  {
    var l := Ledger(Recorded(k, hp), None);
    s.(sequence := s.sequence + events,
       ev := if own then s.ev.(local := l, ppEntries := s.ev.ppEntries + Entries(own, k)) else s.ev.(enemy := l))
  }

  lemma BeginsRecorded(c: Config, s: Owner, own: bool, m: Memory, hp: Word, peer: set<Phase>)
    requires Awake(s, 2) && InTurn(s) && LedgerOf(s.ev, own) == NO_LEDGER
    ensures var l := NO_LEDGER.(action := NO_LEDGER.action.(executed := true));
      Play(c, s, Begins(own, m, hp), peer) ==
        if own then s.(sequence := s.sequence + 2, ev := s.ev.(local := l, ppEntries := s.ev.ppEntries + 1))
        else s.(sequence := s.sequence + 1, ev := s.ev.(enemy := l))
  {
    var n := Acting(own, m, hp, 0, 0);
    ActingFields(own, m, hp, 0, 0);
    hide Step, Play, Acting;
    Executes(c, s, own, n, peer);
    if own {
      EntersPp(c, Step(c, s, Observed(ExecuteHook(true), n), peer), n, peer);
      PlayTwo(c, s, Observed(ExecuteHook(true), n), Observed(DecrementPp, n), peer);
    } else {
      PlaySingle(c, s, Observed(ExecuteHook(false), n), peer);
    }
  }

  lemma ParalysisRecorded(c: Config, s: Owner, own: bool, m: Memory, hp: Word, peer: set<Phase>)
    requires Awake(s, 2) && InTurn(s) && LedgerOf(s.ev, own) == NO_LEDGER
    ensures Play(c, s, Strikes(own, Paralysed, m, hp), peer) == Struck(s, own, Paralysed, hp, 2)
  {
    var n, f := Acting(own, m, hp, 0, 0), Acting(own, m, hp, 0, 1);
    ActingFields(own, m, hp, 0, 0);
    ActingFields(own, m, hp, 0, 1);
    hide Step, Play, Acting;
    var e, d := Observed(ParalysisHook(own), n), Observed(DoneHook(own), f);
    assert Strikes(own, Paralysed, m, hp) == [e, d];
    PlayTwo(c, s, e, d, peer);
    IsParalysed(c, s, own, n, peer);
    Finishes(c, Step(c, s, e, peer), own, f, peer);
  }

  // Whatever a side does within the target's hit points, its record afterwards holds
  // exactly its samples, and nothing else of the evidence moves.
  lemma StrikeRecorded(c: Config, s: Owner, own: bool, k: Strike, m: Memory, hp: Word, peer: set<Phase>)
    requires Awake(s, 10) && InTurn(s) && LedgerOf(s.ev, own) == NO_LEDGER
    requires Sum(DamagesOf(k)) <= hp && |DamagesOf(k)| <= 2
    ensures |Strikes(own, k, m, hp)| <= 7
    ensures Play(c, s, Strikes(own, k, m, hp), peer) == Struck(s, own, k, hp, |Strikes(own, k, m, hp)|)
  {
    if k == Paralysed {
      ParalysisRecorded(c, s, own, m, hp, peer);
    } else {
      MovesRecorded(c, s, own, k.damages, m, hp, peer);
    }
  }

  // The ledger of a side that executes and has dealt these damages.
  function Executing(hp: Word, ds: seq<Word>): Ledger
    requires Sum(ds) <= hp
  {
    Ledger(Action(true, false, NotSkipped, |SamplesOf(hp, ds)|, None, SamplesOf(hp, ds)), None)
  }

  lemma DealsRecorded(c: Config, s: Owner, own: bool, ds: seq<Word>, m: Memory, hp: Word, peer: set<Phase>)
    requires Awake(s, 10) && InTurn(s) && LedgerOf(s.ev, own) == NO_LEDGER && Sum(ds) <= hp && |ds| <= 2
    ensures var events, l := Begins(own, m, hp) + Hits(own, m, hp, ds), Executing(hp, ds);
      && |events| <= 6 && |SamplesOf(hp, ds)| == |ds|
      && Play(c, s, events, peer) == s.(sequence := s.sequence + |events|,
           ev := if own then s.ev.(local := l, ppEntries := s.ev.ppEntries + 1) else s.ev.(enemy := l))
  {
    var first, hits := Begins(own, m, hp), Hits(own, m, hp, ds);
    assert |first| == if own then 2 else 1;
    hide Step, Play, Acting, Begins, Hits;
    BeginsRecorded(c, s, own, m, hp, peer);
    var t := Play(c, s, first, peer);
    HitsRecorded(c, t, own, m, hp, ds, peer);
    PlayConcat(c, s, first, hits, peer);
    hide SamplesOf;
    assert [] + SamplesOf(hp, ds) == SamplesOf(hp, ds);
  }

  lemma MovesRecorded(c: Config, s: Owner, own: bool, ds: seq<Word>, m: Memory, hp: Word, peer: set<Phase>)
    requires Awake(s, 10) && InTurn(s) && LedgerOf(s.ev, own) == NO_LEDGER && Sum(ds) <= hp && |ds| <= 2
    ensures |Strikes(own, Moves(ds), m, hp)| <= 7
    ensures Play(c, s, Strikes(own, Moves(ds), m, hp), peer) == Struck(s, own, Moves(ds), hp, |Strikes(own, Moves(ds), m, hp)|)
  {
    var dealt := Begins(own, m, hp) + Hits(own, m, hp, ds);
    var f := Acting(own, m, hp - Sum(ds), 0, if ds == [] then 1 else 0);
    var last := Observed(DoneHook(own), f);
    ActingFields(own, m, hp - Sum(ds), 0, if ds == [] then 1 else 0);
    assert Strikes(own, Moves(ds), m, hp) == dealt + [last];
    hide Step, Play, Acting, Begins, Hits, Strikes, SamplesOf;
    DealsRecorded(c, s, own, ds, m, hp, peer);
    var t := Play(c, s, dealt, peer);
    Finishes(c, t, own, f, peer);
    PlaySingle(c, t, last, peer);
    PlayConcat(c, s, dealt, [last], peer);
  }

  // ----------------------------------------------------------- the settled turn

  // What a move may do to a target of `hp`: it leaves at least one hit point, and hits
  // twice or not at all if it hits twice, at most once otherwise.
  predicate Possible(k: Strike, effect: int, hp: Word) {
    && Sum(DamagesOf(k)) < hp as int
    && if effect == 44 then |DamagesOf(k)| == 0 || |DamagesOf(k)| == 2 else |DamagesOf(k)| <= 1
  }

  // A status that stays, or a paralysis inflicted by a damaging move that can.
  predicate StatusAfter(before: Byte, after: Byte, k: Strike, effect: int) {
    after == before || (before == 0 && after == 64 && effect == 6 && DamagesOf(k) != [])
  }

  // A combatant after the turn: as before, but for hit points, status and PP.
  function Afterwards(b: Combatant, lost: nat, status: Byte, pp: Bytes): Combatant
    requires lost <= b.hp as int
  {
    Combatant(b.slot, b.species, b.hp - lost, status, b.moves, pp)
  }

  function PpAfter(pp: Bytes, slot: nat, k: Strike): Bytes
    requires slot < |pp| && pp[slot] % 64 != 0
  {
    if k.Moves? then pp[slot := pp[slot] - 1] else pp
  }

  lemma {:induction false} SamplesReplay(hp: Word, ds: seq<Word>)
    requires Sum(ds) < hp as int
    ensures ReplayHp(hp, SamplesOf(hp, ds)) == Some(hp as int - Sum(ds))
    ensures |SamplesOf(hp, ds)| == |ds|
    decreases |ds|
  {
    if ds != [] {
      SamplesReplay(hp - ds[0], ds[1..]);
      assert SamplesOf(hp, ds)[1..] == SamplesOf(hp - ds[0], ds[1..]);
    }
  }

  // Everything about the two sides a turn starts from and ends with.
  datatype Half = Half(before: Combatant, status: Byte, slot: nat, move: int, effect: int, strike: Strike)

  // One side is fit, sends a move of its own that it can use, and is paralysed at the
  // end if it could not move.
  predicate Playable(h: Half) {
    && Fit(h.before) && h.slot < 4 && h.before.moves[h.slot] == h.move && 1 <= h.move <= 165
    && CatalogEffect(h.move) == Some(h.effect) && !UnsupportedMove(h.move)
    && (h.status == 0 || h.status == 64) && (h.strike == Paralysed ==> h.status == 64)
  }

  predicate Meets(h: Half, t: Half) {
    Playable(h) && Possible(h.strike, h.effect, t.before.hp) && StatusAfter(t.before.status, t.status, h.strike, h.effect)
  }

  lemma HalfSettles(h: Half, t: Half, pp: Bytes, tpp: Bytes)
    requires Meets(h, t) && Meets(t, h) && |pp| == 4 && |tpp| == 4
    ensures SideSettled(h.before, Afterwards(h.before, Sum(DamagesOf(t.strike)), h.status, pp),
                        t.before, Afterwards(t.before, Sum(DamagesOf(h.strike)), t.status, tpp),
                        h.slot, h.move, h.effect, Recorded(h.strike, t.before.hp))
  {
    SamplesReplay(t.before.hp, DamagesOf(h.strike));
    hide CatalogEffect, ReplayHp, SamplesOf, UnsupportedMove;
  }

  function TurnMade(h: Half, t: Half, exchangeSeq: int, settledSeq: int, tpp: Bytes): Turn
    requires Meets(h, t) && Meets(t, h) && h.before.pp[h.slot] % 64 != 0
  {
    var pp := PpAfter(h.before.pp, h.slot, h.strike);
    Turn(exchangeSeq, settledSeq, h.slot, t.slot, h.move, t.move, h.effect, t.effect,
         Afterwards(h.before, Sum(DamagesOf(t.strike)), h.status, pp),
         Afterwards(t.before, Sum(DamagesOf(h.strike)), t.status, tpp),
         Recorded(h.strike, t.before.hp), Recorded(t.strike, h.before.hp), h.before.pp, pp, Entries(true, h.strike))
  }

  lemma TurnIsValid(h: Half, t: Half, b: Baseline, exchangeSeq: int, settledSeq: int, tpp: Bytes)
    requires Meets(h, t) && Meets(t, h) && h.before.pp[h.slot] % 64 != 0 && |tpp| == 4
    requires b.local == h.before && b.enemy == t.before
    ensures LocalTurnValid(b, TurnMade(h, t, exchangeSeq, settledSeq, tpp))
  {
    var pp := PpAfter(h.before.pp, h.slot, h.strike);
    HalfSettles(h, t, pp, tpp);
    HalfSettles(t, h, tpp, pp);
    hide SideSettled, Afterwards, Recorded, CatalogEffect, UnsupportedMove, Possible, StatusAfter;
  }

  // The game's memory at the end of the turn.
  function Settling(h: Half, t: Half, m: Memory, tpp: Bytes): Memory
    requires Meets(h, t) && Meets(t, h) && h.before.pp[h.slot] % 64 != 0 && |tpp| == 4
    requires 0 <= h.move < 256 && 0 <= t.move < 256
  {
    var turn := TurnMade(h, t, 0, 0, tpp);
    m.(local := turn.local, enemy := turn.enemy, playerSelected := h.move, enemySelected := t.move)
  }

  // The main loop, reached over that memory, freezes the turn with those samples.
  lemma TurnSettles(c: Config, s: Owner, h: Half, t: Half, m: Memory, tpp: Bytes, peer: set<Phase>)
    requires Meets(h, t) && Meets(t, h) && h.before.pp[h.slot] % 64 != 0 && |tpp| == 4
    requires Awake(s, 1) && s.ev.turn.None? && s.ev.baseline.Some? && s.ev.exchange.Some?
    requires s.ev.baseline.value.local == h.before && s.ev.baseline.value.enemy == t.before
    requires s.ev.exchange.value
      == Exchange(s.ev.exchange.value.seqNo, h.slot, t.slot, h.move, t.move, h.effect, t.effect)
    requires s.ev.local == Ledger(Recorded(h.strike, t.before.hp), None) && s.ev.ppEntries == Entries(true, h.strike)
    requires s.ev.enemy == Ledger(Recorded(t.strike, h.before.hp), None)
    ensures Step(c, s, Observed(MainInBattleLoop, Settling(h, t, m, tpp)), peer) ==
      s.(sequence := s.sequence + 1, flags := s.flags + {SettledTurn},
         ev := s.ev.(turn := Some(TurnMade(h, t, s.ev.exchange.value.seqNo, s.sequence + 1, tpp))))
  {
    var turn := TurnMade(h, t, s.ev.exchange.value.seqNo, s.sequence + 1, tpp);
    TurnIsValid(h, t, s.ev.baseline.value, s.ev.exchange.value.seqNo, s.sequence + 1, tpp);
    SettlingFields(h, t, m, tpp, s.ev.exchange.value.seqNo, s.sequence + 1);
    FreezesTurn(c, s, Settling(h, t, m, tpp), turn, peer);
  }

  lemma SettlingFields(h: Half, t: Half, m: Memory, tpp: Bytes, exchangeSeq: int, settledSeq: int)
    requires Meets(h, t) && Meets(t, h) && h.before.pp[h.slot] % 64 != 0 && |tpp| == 4
    ensures var n, turn := Settling(h, t, m, tpp), TurnMade(h, t, exchangeSeq, settledSeq, tpp);
      && n.local == turn.local && n.enemy == turn.enemy && n.local.hp != 0 && n.enemy.hp != 0
      && n.playerSelected as int == h.move && n.enemySelected as int == t.move
      && turn.localAction.done && turn.enemyAction.done
  {
    hide SamplesOf, CatalogEffect, UnsupportedMove;
  }

  // A main-loop hook over memory that fits a valid turn freezes it.
  lemma FreezesTurn(c: Config, s: Owner, n: Memory, turn: Turn, peer: set<Phase>)
    requires Awake(s, 1) && s.ev.turn.None? && s.ev.baseline.Some? && s.ev.exchange.Some?
    requires LocalTurnValid(s.ev.baseline.value, turn)
    requires n.local == turn.local && n.enemy == turn.enemy && n.local.hp != 0 && n.enemy.hp != 0
    requires n.playerSelected as int == turn.localMove && n.enemySelected as int == turn.enemyMove
    requires turn.localAction.done && turn.enemyAction.done
    requires s.ev.local.action == turn.localAction && s.ev.enemy.action == turn.enemyAction
    requires s.ev.ppEntries == turn.decrementEntries
    requires turn.ppBefore == s.ev.baseline.value.local.pp && turn.ppAfter == turn.local.pp
    requires var x := s.ev.exchange.value;
      && turn.exchangeSeq == x.seqNo && turn.settledSeq == s.sequence + 1 && turn.send == x.send && turn.receive == x.receive
      && turn.localMove == x.localMove && turn.enemyMove == x.enemyMove
      && turn.localEffect == x.localEffect && turn.enemyEffect == x.enemyEffect
    ensures Step(c, s, Observed(MainInBattleLoop, n), peer) ==
      s.(sequence := s.sequence + 1, flags := s.flags + {SettledTurn}, ev := s.ev.(turn := Some(turn)))
  {
    hide LocalTurnValid, BaselineValid;
  }

  // ----------------------------------------------------------- the whole turn

  // The exchange crosses over memory that shows both chosen moves.
  lemma ExchangeCrosses(c: Config, s: Owner, m: Memory, peer: set<Phase>, effects: (Byte, Byte))
    requires Awake(s, 1) && s.ev.exchange.None? && s.ev.turn.None?
    requires PartyCancelled in s.flags && MoveA in s.inputs.sent
    requires m.send as int == c.chosen.slot && m.receive < 4
    requires ExchangedEffect(c.rom, m.playerSelected) == Effect(effects.0)
    requires ExchangedEffect(c.rom, m.enemy.moves[m.receive]) == Effect(effects.1)
    ensures Step(c, s, Observed(PostExchange, m), peer) ==
      s.(sequence := s.sequence + 1, ev := s.ev.(exchange := Some(
           Exchange(s.sequence + 1, m.send, m.receive, m.playerSelected, m.enemy.moves[m.receive], effects.0, effects.1))))
  {
    hide ExchangedEffect;
  }

  // From any state at its confirmed move with a baseline frozen, whatever two legal
  // actions the sides take and whichever acts first, the owner ends with a frozen turn
  // that holds exactly those damages, hit points, statuses and PP.
  lemma TurnPlayedOut(c: Config, s: Owner, h: Half, t: Half, m: Memory, tpp: Bytes, ownFirst: bool, peer: set<Phase>)
    returns (events: seq<Event>, settledSeq: int)
    requires Meets(h, t) && Meets(t, h) && h.before.pp[h.slot] % 64 != 0 && |tpp| == 4
    requires Awake(s, 20) && s.ev == FRESH_OWNER.ev.(baseline := s.ev.baseline) && s.ev.baseline.Some?
    requires s.ev.baseline.value.local == h.before && s.ev.baseline.value.enemy == t.before
    requires PartyCancelled in s.flags && MoveA in s.inputs.sent
    requires c.chosen.slot == h.slot && m.send as int == h.slot && m.receive as int == t.slot
    requires m.playerSelected as int == h.move && m.enemy.moves[t.slot] as int == t.move
    requires 0 <= h.effect < 256 && 0 <= t.effect < 256
    requires ExchangedEffect(c.rom, h.move) == Effect(h.effect) && ExchangedEffect(c.rom, t.move) == Effect(t.effect)
    ensures var z := Play(c, s, events, peer);
      && z.error.None? && SettledTurn in z.flags && z.ev.baseline == s.ev.baseline
      && z.ev.turn == Some(TurnMade(h, t, s.sequence + 1, settledSeq, tpp)) && settledSeq > s.sequence + 1
  {
    var x := Observed(PostExchange, m);
    ExchangeCrosses(c, s, m, peer, (h.effect, t.effect));
    var s1 := Step(c, s, x, peer);
    assert s1.ev.exchange == Some(Exchange(s.sequence + 1, h.slot, t.slot, h.move, t.move, h.effect, t.effect));
    assert Awake(s1, 19) && s1.ev.baseline == s.ev.baseline && s1.ev.turn.None? && s1.ev.ppEntries == 0
      && s1.ev.local == NO_LEDGER && s1.ev.enemy == NO_LEDGER && s1.sequence == s.sequence + 1;
    hide *;
    var rest;
    rest, settledSeq := ActsAndSettles(c, s1, h, t, m, tpp, ownFirst, peer, s.sequence + 1);
    PlaySingle(c, s, x, peer);
    PlayConcat(c, s, [x], rest, peer);
    events := [x] + rest;
  }

  // The same from the exchange on.
  lemma ActsAndSettles(
      c: Config, s: Owner, h: Half, t: Half, m: Memory, tpp: Bytes, ownFirst: bool, peer: set<Phase>, exchangeSeq: int)
    returns (events: seq<Event>, settledSeq: int)
    requires Meets(h, t) && Meets(t, h) && h.before.pp[h.slot] % 64 != 0 && |tpp| == 4
    requires Awake(s, 19) && s.ev.baseline.Some? && s.ev.turn.None? && s.ev.ppEntries == 0
    requires s.ev.local == NO_LEDGER && s.ev.enemy == NO_LEDGER && s.sequence == exchangeSeq
    requires s.ev.baseline.value.local == h.before && s.ev.baseline.value.enemy == t.before
    requires s.ev.exchange == Some(Exchange(exchangeSeq, h.slot, t.slot, h.move, t.move, h.effect, t.effect))
    ensures var z := Play(c, s, events, peer);
      && z.error.None? && SettledTurn in z.flags && z.ev.baseline == s.ev.baseline
      && z.ev.turn == Some(TurnMade(h, t, exchangeSeq, settledSeq, tpp)) && settledSeq > exchangeSeq
  {
    assert Awake(s, 17) && InTurn(s);
    hide *;
    var acts := BothAct(c, s, h, t, m, ownFirst, peer);
    var z := Play(c, s, acts, peer);
    ActedFacts(s, h, t, |acts|, z);
    var settle := SettlesNow(c, z, h, t, m, tpp, peer, exchangeSeq);
    PlaySingle(c, z, settle, peer);
    PlayConcat(c, s, acts, [settle], peer);
    events, settledSeq := acts + [settle], z.sequence + 1;
  }

  // Where the owner stands once both sides have acted.
  ghost predicate ActedBoth(s: Owner, h: Half, t: Half, used: nat, z: Owner)
    requires Meets(h, t) && Meets(t, h)
  {
    && used <= 14
    && z == s.(sequence := s.sequence + used, ev := s.ev.(
         local := Ledger(Recorded(h.strike, t.before.hp), None), enemy := Ledger(Recorded(t.strike, h.before.hp), None),
         ppEntries := Entries(true, h.strike)))
  }

  lemma ActedFacts(s: Owner, h: Half, t: Half, used: nat, z: Owner)
    requires Meets(h, t) && Meets(t, h) && Awake(s, 17) && ActedBoth(s, h, t, used, z)
    ensures Awake(z, 1) && z.ev.baseline == s.ev.baseline && z.ev.exchange == s.ev.exchange && z.ev.turn == s.ev.turn
    ensures z.ev.local == Ledger(Recorded(h.strike, t.before.hp), None) && z.ev.ppEntries == Entries(true, h.strike)
    ensures z.ev.enemy == Ledger(Recorded(t.strike, h.before.hp), None) && z.sequence >= s.sequence
  {
    hide Recorded, Meets, Entries;
  }

  lemma SettlesNow(c: Config, s: Owner, h: Half, t: Half, m: Memory, tpp: Bytes, peer: set<Phase>, exchangeSeq: int)
    returns (settle: Event)
    requires Meets(h, t) && Meets(t, h) && h.before.pp[h.slot] % 64 != 0 && |tpp| == 4
    requires Awake(s, 1) && s.ev.turn.None? && s.ev.baseline.Some?
    requires s.ev.baseline.value.local == h.before && s.ev.baseline.value.enemy == t.before
    requires s.ev.exchange == Some(Exchange(exchangeSeq, h.slot, t.slot, h.move, t.move, h.effect, t.effect))
    requires s.ev.local == Ledger(Recorded(h.strike, t.before.hp), None) && s.ev.ppEntries == Entries(true, h.strike)
    requires s.ev.enemy == Ledger(Recorded(t.strike, h.before.hp), None)
    ensures var z := Step(c, s, settle, peer);
      && z.error.None? && SettledTurn in z.flags && z.ev.baseline == s.ev.baseline
      && z.ev.turn == Some(TurnMade(h, t, exchangeSeq, s.sequence + 1, tpp))
  {
    settle := Observed(MainInBattleLoop, Settling(h, t, m, tpp));
    assert s.error.None?;
    hide *;
    TurnSettles(c, s, h, t, m, tpp, peer);
  }

  // Both sides act, one after the other.
  lemma BothAct(c: Config, s: Owner, h: Half, t: Half, m: Memory, ownFirst: bool, peer: set<Phase>) returns (events: seq<Event>)
    requires Meets(h, t) && Meets(t, h) && Awake(s, 17) && InTurn(s)
    requires s.ev.local == NO_LEDGER && s.ev.enemy == NO_LEDGER && s.ev.ppEntries == 0
    ensures ActedBoth(s, h, t, |events|, Play(c, s, events, peer))
  {
    var first, second := if ownFirst then h else t, if ownFirst then t else h;
    var a := Strikes(ownFirst, first.strike, m, second.before.hp);
    var b := Strikes(!ownFirst, second.strike, m, first.before.hp);
    events := a + b;
    var s1 := Struck(s, ownFirst, first.strike, second.before.hp, |a|);
    StrikeLength(ownFirst, first.strike, m, second.before.hp);
    StrikeLength(!ownFirst, second.strike, m, first.before.hp);
    hide Strikes, Recorded, CatalogEffect, UnsupportedMove, Step, Play;
    StruckFacts(s, ownFirst, first.strike, second.before.hp, |a|);
    BothStruck(s, h, t, ownFirst, |a|, |b|);
    hide *;
    StrikeRecorded(c, s, ownFirst, first.strike, m, second.before.hp, peer);
    StrikeRecorded(c, s1, !ownFirst, second.strike, m, first.before.hp, peer);
    PlayConcat(c, s, a, b, peer);
  }

  lemma StrikeLength(own: bool, k: Strike, m: Memory, hp: Word)
    requires Sum(DamagesOf(k)) <= hp && |DamagesOf(k)| <= 2
    ensures |Strikes(own, k, m, hp)| <= 7
  {
    HitsLength(own, m, hp, DamagesOf(k));
    hide Acting, Hits, Sum;
  }

  lemma {:induction false} HitsLength(own: bool, m: Memory, hp: Word, ds: seq<Word>)
    requires Sum(ds) <= hp
    ensures |Hits(own, m, hp, ds)| == 2 * |ds|
  {
    if ds != [] { HitsLength(own, m, hp - ds[0], ds[1..]); }
  }

  lemma StruckFacts(s: Owner, own: bool, k: Strike, hp: Word, used: nat)
    requires Awake(s, 17) && InTurn(s) && Sum(DamagesOf(k)) <= hp && used <= 7
    requires LedgerOf(s.ev, !own) == NO_LEDGER
    ensures var z := Struck(s, own, k, hp, used); Awake(z, 10) && InTurn(z) && LedgerOf(z.ev, !own) == NO_LEDGER
  {
    hide Recorded;
  }

  lemma BothStruck(s: Owner, h: Half, t: Half, ownFirst: bool, a: nat, b: nat)
    requires Meets(h, t) && Meets(t, h) && a <= 7 && b <= 7 && s.ev.ppEntries == 0
    ensures var first, second := if ownFirst then h else t, if ownFirst then t else h;
      var s1 := Struck(s, ownFirst, first.strike, second.before.hp, a);
      ActedBoth(s, h, t, a + b, Struck(s1, !ownFirst, second.strike, first.before.hp, b))
  {
    hide Recorded;
  }
}
