// What each hook of a trade does to an owner, said for every memory and in the fields it
// reads (scripts/_timed_trade_probe.py).
module TradeHooks {
  import opened Common
  import opened TradeRules
  import opened TradeProtocol

  // The owner after a hook that left this evidence, error and phases behind.
  function Noticed(s: Owner, h: Hook, m: Memory, ev: Evidence, error: Option<Fault>, phases: set<Phase>): Owner {
    s.(ev := ev, error := error, flags := s.flags + phases, screen := EnterScreen(s.screen, h, m))
  }

  // A party in memory that the reader accepts: a count, a closed list of species, and
  // records, trainer and nick names of the right sizes, each record led by its species.
  ghost predicate PartyThere(ram: PartyRam, p: Party) {
    && 1 <= ram.count <= 6 && p.count == ram.count as int
    && p.species == ram.species[..ram.count + 1] && ram.species[ram.count] == 255
    && p.records == ram.records[..ram.count] && p.otNames == ram.otNames[..ram.count] && p.nicknames == ram.nicknames[..ram.count]
    && forall i :: 0 <= i < p.count ==> 1 <= p.species[i] <= 190 && p.records[i][0] as int == p.species[i]
  }

  lemma ReadExactly(ram: PartyRam, p: Party)
    ensures ReadParty(ram) == Some(p) <==> PartyThere(ram, p)
  {
  }

  // Every survivor in its place: the party without the outgoing member, in order.
  predicate InPlace(before: Party, slot: nat, p: Party)
    requires |before.records| == |before.otNames| == |before.nicknames| && slot < |before.records|
  {
    var n := |before.records|;
    && |p.records| == n && |p.otNames| == n && |p.nicknames| == n
    && forall k :: 0 <= k < n - 1 ==>
         var from := if k < slot then k else k + 1;
         p.records[k] == before.records[from] && p.otNames[k] == before.otNames[from] && p.nicknames[k] == before.nicknames[from]
  }

  lemma InPlaceExactly(before: Party, slot: nat, p: Party)
    requires PartyValid(before) && PartyValid(p) && slot < before.count
    ensures SurvivorsKept(before, slot, p) <==> InPlace(before, slot, p)
  {
    var n := before.count;
    if SurvivorsKept(before, slot, p) {
      forall k | 0 <= k < n - 1
        ensures var from := if k < slot then k else k + 1;
          p.records[k] == before.records[from] && p.otNames[k] == before.otNames[from] && p.nicknames[k] == before.nicknames[from]
      {
        assert p.records[k] == p.records[..n - 1][k] && p.otNames[k] == p.otNames[..n - 1][k]
          && p.nicknames[k] == p.nicknames[..n - 1][k];
      }
    }
    if InPlace(before, slot, p) {
      assert p.records[..n - 1] == Without(before.records, slot);
      assert p.otNames[..n - 1] == Without(before.otNames, slot);
      assert p.nicknames[..n - 1] == Without(before.nicknames, slot);
    }
  }

  // A member that would evolve when traded.
  predicate Evolving(species: int) { species == 38 || species == 39 || species == 41 || species == 147 }

  // The copy is taken once, after the enemy's member was added during a running trade:
  // kept whatever it shows, and announced exactly when every survivor is in its place and
  // the received member does not evolve.
  lemma CopyHook(c: Config, s: Owner, m: Memory, p: Party, peer: set<Phase>)
    requires Qualified(c) && s.ev.copying && s.ev.copy.None? && PartyThere(m.party, p)
    ensures var t, ev := Step(c, s, Observed(TryEvolving, m), peer), s.ev.(copy := Some(p));
      if !InPlace(c.before, c.slot, p) then t == Noticed(s, TryEvolving, m, ev, Some(CompactionMismatch), {})
      else if Evolving(p.species[p.count - 1]) then t == Noticed(s, TryEvolving, m, ev, Some(IncomingEvolution), {})
      else t == Noticed(s, TryEvolving, m, ev, s.error, {CopyValidated})
  {
    ReadExactly(m.party, p);
    InPlaceExactly(c.before, c.slot, p);
    hide InPlace, SurvivorsKept, EnterScreen, PartyThere, ReadParty;
  }

  // The final party is read once, after the save: it must be the copy.
  lemma FinalHook(c: Config, s: Owner, m: Memory, p: Party, peer: set<Phase>)
    requires Qualified(c) && s.ev.saved && s.ev.final.None? && PartyThere(m.party, p)
    ensures var t, ev := Step(c, s, Observed(TradeAgain, m), peer), s.ev.(final := Some(p));
      if s.ev.copy != Some(p) then t == Noticed(s, TradeAgain, m, ev, Some(FinalTransformed), {})
      else t == Noticed(s, TradeAgain, m, ev, s.error, if s.error.None? then {CycleReturned} else {})
  {
    ReadExactly(m.party, p);
    hide EnterScreen, PartyThere, ReadParty, Qualified;
  }

  // A party that cannot be read is an error only where it was to be read, and only the
  // first.
  lemma UnreadableParty(c: Config, s: Owner, h: Hook, m: Memory, peer: set<Phase>)
    requires Qualified(c) && forall p :: !PartyThere(m.party, p)
    requires (h == TryEvolving && s.ev.copying && s.ev.copy.None?) || (h == TradeAgain && s.ev.saved && s.ev.final.None?)
    ensures Step(c, s, Observed(h, m), peer)
      == Noticed(s, h, m, s.ev, if s.error.Some? then s.error else Some(PartyUnreadable), {})
  {
    if ReadParty(m.party).Some? { ReadExactly(m.party, ReadParty(m.party).value); }
    hide EnterScreen, PartyThere, ReadParty, Qualified;
  }

  // The other two marks: the enemy's member being added while the trade runs, and the
  // save after a copy. Neither ever makes an error.
  lemma MarkHooks(c: Config, s: Owner, m: Memory, peer: set<Phase>)
    requires Qualified(c)
    ensures Step(c, s, Observed(AddEnemyMon, m), peer)
      == Noticed(s, AddEnemyMon, m, if s.screen.context == Some(TradeRunning) then s.ev.(copying := true) else s.ev, s.error, {})
    ensures Step(c, s, Observed(SaveParty, m), peer)
      == Noticed(s, SaveParty, m, if s.ev.copy.Some? then s.ev.(saved := true) else s.ev, s.error, {})
  {
    hide Qualified;
  }

  // Every other hook, and these when not due, only changes the screen.
  lemma OtherHooks(c: Config, s: Owner, h: Hook, m: Memory, peer: set<Phase>)
    requires Qualified(c) && h != AddEnemyMon && h != SaveParty
    requires h == TryEvolving ==> !s.ev.copying || s.ev.copy.Some?
    requires h == TradeAgain ==> !s.ev.saved || s.ev.final.Some?
    ensures Step(c, s, Observed(h, m), peer) == Noticed(s, h, m, s.ev, s.error, {})
  {
    hide EnterScreen, Qualified;
  }
}
