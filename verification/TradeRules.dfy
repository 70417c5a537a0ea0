// Parties, the reciprocal exchange and the parent's comparison of two reports
// (scripts/_timed_trade_probe.py).
module TradeRules {
  import opened Common

  datatype Party = Party(
    count: int, species: seq<int>, records: seq<Bytes>, otNames: seq<Bytes>, nicknames: seq<Bytes>)

  ghost predicate Sized(items: seq<Bytes>, count: int, size: nat) {
    |items| == count && forall i :: 0 <= i < |items| ==> |items[i]| == size
  }

  ghost predicate PartyValid(p: Party) {
    && 1 <= p.count <= 6
    && |p.species| == p.count + 1 && p.species[p.count] == 255
    && Sized(p.records, p.count, 44) && Sized(p.otNames, p.count, 11) && Sized(p.nicknames, p.count, 11)
    && forall i :: 0 <= i < p.count ==> 1 <= p.species[i] <= 190 && p.records[i][0] == p.species[i]
  }

  method CheckSized(items: seq<Bytes>, count: int, size: nat) returns (ok: bool)
    ensures ok <==> Sized(items, count, size)
  {
    if |items| != count {
      return false;
    }
    for i := 0 to |items|
      invariant forall k :: 0 <= k < i ==> |items[k]| == size
    {
      if |items[i]| != size {
        return false;
      }
    }
    return true;
  }

  method ValidateParty(p: Party) returns (ok: bool)
    ensures ok <==> PartyValid(p)
  {
    if !(1 <= p.count <= 6) || |p.species| != p.count + 1 || p.species[|p.species| - 1] != 255 {
      return false;
    }
    var records := CheckSized(p.records, p.count, 44);
    var otNames := CheckSized(p.otNames, p.count, 11);
    var nicknames := CheckSized(p.nicknames, p.count, 11);
    if !records || !otNames || !nicknames {
      return false;
    }
    for i := 0 to |p.species| - 1
      invariant forall k :: 0 <= k < i ==> 1 <= p.species[k] <= 190 && p.records[k][0] == p.species[k]
    {
      if !(1 <= p.species[i] <= 190) || p.records[i][0] != p.species[i] {
        return false;
      }
    }
    return true;
  }

  // Species that change when traded; never offered, never accepted.
  predicate TradeEvolves(species: int) {
    species == 0x26 || species == 0x27 || species == 0x29 || species == 0x93
  }

  function Without<T>(s: seq<T>, i: nat): seq<T>
    requires i < |s|
  {
    s[..i] + s[i + 1..]
  }

  // The party the game builds: the outgoing member leaves, the survivors close up
  // and the incoming member is appended. None where the source raises.
  ghost function Expected(before: Party, outgoing: int, peer: Party, incoming: int): Option<Party> {
    if !PartyValid(before) || !PartyValid(peer) || !(0 <= outgoing < before.count) || !(0 <= incoming < peer.count) then None
    else
      Some(Party(
        before.count,
        Without(before.species[..before.count], outgoing) + [peer.species[incoming], 255],
        Without(before.records, outgoing) + [peer.records[incoming]],
        Without(before.otNames, outgoing) + [peer.otNames[incoming]],
        Without(before.nicknames, outgoing) + [peer.nicknames[incoming]]))
  }

  // ------------------------------------------------------- members as a whole

  datatype Member = Member(species: int, record: Bytes, otName: Bytes, nickname: Bytes)

  ghost function MemberAt(p: Party, i: nat): Member
    requires PartyValid(p) && i < p.count
  {
    Member(p.species[i], p.records[i], p.otNames[i], p.nicknames[i])
  }

  ghost function Members(p: Party): (ms: seq<Member>)
    requires PartyValid(p)
    ensures |ms| == p.count && forall i :: 0 <= i < p.count ==> ms[i] == MemberAt(p, i)
  {
    seq(p.count, i requires 0 <= i < p.count => MemberAt(p, i))
  }

  // A valid party is exactly its list of members.
  lemma MembersDetermine(p: Party, q: Party)
    requires PartyValid(p) && PartyValid(q) && Members(p) == Members(q)
    ensures p == q
  {
    forall i | 0 <= i < p.count
      ensures p.species[i] == q.species[i] && p.records[i] == q.records[i]
      ensures p.otNames[i] == q.otNames[i] && p.nicknames[i] == q.nicknames[i]
    {
      assert Members(p)[i] == MemberAt(p, i) && Members(q)[i] == MemberAt(q, i);
    }
    assert p.species == q.species;
  }

  // One side of a trade, seen member by member: still a valid party, with the
  // survivors in order and the peer's member last.
  lemma ExpectedMembers(a: Party, i: int, b: Party, j: int)
    requires PartyValid(a) && PartyValid(b) && 0 <= i < a.count && 0 <= j < b.count
    ensures Expected(a, i, b, j).Some?
    ensures var r := Expected(a, i, b, j).value;
      && PartyValid(r) && r.count == a.count
      && Members(r) == Without(Members(a), i) + [MemberAt(b, j)]
  {
    var r := Expected(a, i, b, j).value;
    assert PartyValid(r);
    forall k | 0 <= k < r.count
      ensures MemberAt(r, k) == (Without(Members(a), i) + [MemberAt(b, j)])[k]
    {
    }
  }

  lemma WithoutAndItem<T>(s: seq<T>, i: nat)
    requires i < |s|
    ensures multiset(Without(s, i)) + multiset{s[i]} == multiset(s)
  {
    assert s == s[..i] + [s[i]] + s[i + 1..];
  }

  // A reciprocal trade creates and loses nothing: the members of both parties
  // together are the same before and after.
  lemma TradeConserves(a: Party, i: int, b: Party, j: int)
    requires PartyValid(a) && PartyValid(b) && 0 <= i < a.count && 0 <= j < b.count
    ensures Expected(a, i, b, j).Some? && Expected(b, j, a, i).Some?
    ensures PartyValid(Expected(a, i, b, j).value) && PartyValid(Expected(b, j, a, i).value)
    ensures multiset(Members(Expected(a, i, b, j).value)) + multiset(Members(Expected(b, j, a, i).value))
      == multiset(Members(a)) + multiset(Members(b))
  {
    hide Members, PartyValid, Expected, Without;
    ExpectedMembers(a, i, b, j);
    ExpectedMembers(b, j, a, i);
    WithoutAndItem(Members(a), i);
    WithoutAndItem(Members(b), j);
    assert multiset(Without(Members(a), i) + [MemberAt(b, j)])
      == multiset(Without(Members(a), i)) + multiset{Members(b)[j]};
    assert multiset(Without(Members(b), j) + [MemberAt(a, i)])
      == multiset(Without(Members(b), j)) + multiset{Members(a)[i]};
  }

  // Trading the two received members straight back returns each party, with the
  // member that travelled moved to the end.
  lemma TradeBack(a: Party, i: int, b: Party, j: int)
    requires PartyValid(a) && PartyValid(b) && 0 <= i < a.count && 0 <= j < b.count
    ensures Expected(a, i, b, j).Some? && Expected(b, j, a, i).Some?
    ensures var a', b' := Expected(a, i, b, j).value, Expected(b, j, a, i).value;
      && Expected(a', a'.count - 1, b', b'.count - 1) == Expected(a, i, a, i)
      && Members(Expected(a, i, a, i).value) == Without(Members(a), i) + [Members(a)[i]]
  {
    ExpectedMembers(a, i, b, j);
    ExpectedMembers(b, j, a, i);
    ExpectedMembers(a, i, a, i);
    var a', b' := Expected(a, i, b, j).value, Expected(b, j, a, i).value;
    ReturnsLast(a, i, b, j, a', b');
  }

  lemma ReturnsLast(a: Party, i: int, b: Party, j: int, a': Party, b': Party)
    requires PartyValid(a) && PartyValid(b) && 0 <= i < a.count && 0 <= j < b.count
    requires PartyValid(a') && PartyValid(b') && a'.count == a.count && b'.count == b.count
    requires Members(a') == Without(Members(a), i) + [MemberAt(b, j)]
    requires Members(b') == Without(Members(b), j) + [MemberAt(a, i)]
    ensures Expected(a', a'.count - 1, b', b'.count - 1) == Expected(a, i, a, i)
  {
    hide PartyValid, Expected;
    ExpectedMembers(a', a'.count - 1, b', b'.count - 1);
    ExpectedMembers(a, i, a, i);
    var back, moved := Expected(a', a'.count - 1, b', b'.count - 1).value, Expected(a, i, a, i).value;
    assert Without(Members(a'), a'.count - 1) == Without(Members(a), i);
    assert MemberAt(b', b'.count - 1) == Members(b')[b'.count - 1] == MemberAt(a, i);
    MembersDetermine(back, moved);
  }

  // ------------------------------------------------------- the copied party

  // The copy keeps every survivor in place; only its last entry is news.
  ghost predicate SurvivorsKept(before: Party, slot: int, copy: Party)
    requires PartyValid(before) && 0 <= slot < before.count && PartyValid(copy)
  {
    && copy.count == before.count
    && copy.records[..copy.count - 1] == Without(before.records, slot)
    && copy.otNames[..copy.count - 1] == Without(before.otNames, slot)
    && copy.nicknames[..copy.count - 1] == Without(before.nicknames, slot)
  }

  // The last entry of a party, without the species byte it repeats.
  ghost predicate LastEntryIs(copy: Party, peer: Party, incoming: int)
    requires PartyValid(copy) && PartyValid(peer) && 0 <= incoming < peer.count
  {
    && copy.records[copy.count - 1] == peer.records[incoming]
    && copy.otNames[copy.count - 1] == peer.otNames[incoming]
    && copy.nicknames[copy.count - 1] == peer.nicknames[incoming]
  }

  // For a copy whose survivors were kept, comparing the whole party comes down to
  // its last entry: species follow from the records.
  lemma CopyIsExpected(before: Party, slot: int, copy: Party, peer: Party, incoming: int)
    requires PartyValid(before) && PartyValid(peer) && PartyValid(copy)
    requires 0 <= slot < before.count && 0 <= incoming < peer.count
    requires SurvivorsKept(before, slot, copy)
    ensures Some(copy) == Expected(before, slot, peer, incoming) <==> LastEntryIs(copy, peer, incoming)
  {
    var e := Expected(before, slot, peer, incoming).value;
    ExpectedMembers(before, slot, peer, incoming);
    if LastEntryIs(copy, peer, incoming) {
      LastSplit(copy.records);
      LastSplit(copy.otNames);
      LastSplit(copy.nicknames);
      SameRecordsSameSpecies(copy, e);
    }
  }

  lemma LastSplit<T>(s: seq<T>)
    requires |s| > 0
    ensures s == s[..|s| - 1] + [s[|s| - 1]]
  {
  }

  lemma SameRecordsSameSpecies(p: Party, q: Party)
    requires PartyValid(p) && PartyValid(q) && p.records == q.records
    ensures p.species == q.species
  {
    assert forall k :: 0 <= k < p.count ==> p.species[k] == p.records[k][0] == q.species[k];
  }
}
