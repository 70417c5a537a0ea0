// Cartridge checksum repair: the in-place loops of scripts/apply_color_patch.py and
// the closed form used by scripts/_bootstrap_runtime_probes.py.
module Checksum {
  import opened Common

  const HEADER_FROM: nat := 0x134
  const HEADER_SUM: nat := 0x14D
  const GLOBAL_SUM: nat := 0x14E
  const SMALLEST: nat := 0x150

  function Sum(s: Bytes): nat {
    if s == [] then 0 else Sum(s[..|s| - 1]) + s[|s| - 1]
  }

  lemma {:induction false} SumConcat(a: Bytes, b: Bytes)
    ensures Sum(a + b) == Sum(a) + Sum(b)
  {
    if b == [] {
      assert a + b == a;
    } else {
      SumConcat(a, b[..|b| - 1]);
      assert (a + b)[..|a + b| - 1] == a + b[..|b| - 1];
    }
  }

  // The header region the header checksum covers.
  function Header(rom: Bytes): Bytes
    requires HEADER_SUM <= |rom|
  {
    rom[HEADER_FROM..HEADER_SUM]
  }

  // A header checksum is right when it cancels the header bytes and their count.
  predicate HeaderRight(rom: Bytes)
    requires SMALLEST <= |rom|
  {
    (Sum(Header(rom)) + 25 + rom[HEADER_SUM]) % 0x100 == 0
  }

  // Every byte except the two of the global checksum itself.
  function Others(rom: Bytes): Bytes
    requires SMALLEST <= |rom|
  {
    rom[..GLOBAL_SUM] + rom[SMALLEST..]
  }

  // A global checksum is right when its big-endian value is the sum of all others.
  predicate GlobalRight(rom: Bytes)
    requires SMALLEST <= |rom|
  {
    BigEndian(rom[GLOBAL_SUM], rom[GLOBAL_SUM + 1]) == Sum(Others(rom)) % 0x1_0000
  }

  // Nothing but the three checksum bytes differs.
  predicate SameOutside(a: Bytes, b: Bytes) {
    |a| == |b| && forall i :: 0 <= i < |a| && !(HEADER_SUM <= i < SMALLEST) ==> a[i] == b[i]
  }

  function HeaderByte(rom: Bytes): Byte
    requires HEADER_SUM <= |rom|
  {
    (-(Sum(Header(rom)) as int) - 25) % 0x100
  }

  function Repaired(rom: Bytes): (r: Bytes)
    requires SMALLEST <= |rom|
    ensures |r| == |rom|
  {
    WithGlobal(rom[HEADER_SUM := HeaderByte(rom)])
  }

  function WithGlobal(rom: Bytes): (r: Bytes)
    requires SMALLEST <= |rom|
    ensures |r| == |rom|
  {
    var g := Sum(Others(rom)) % 0x1_0000;
    rom[GLOBAL_SUM := g / 0x100][GLOBAL_SUM + 1 := g % 0x100]
  }

  // Repair is the only way to make both checksums right without touching another
  // byte; so an image is left alone exactly when both already are.
  lemma RepairIsTheOnlyWay(rom: Bytes, other: Bytes)
    requires SMALLEST <= |rom| && SameOutside(rom, other)
    ensures other == Repaired(rom) <==> HeaderRight(other) && GlobalRight(other)
  {
    RepairIsRight(rom);
    if HeaderRight(other) && GlobalRight(other) {
      OneRightWay(Repaired(rom), other);
    }
  }

  lemma OneRightWay(a: Bytes, b: Bytes)
    requires SMALLEST <= |a| && SameOutside(a, b)
    requires HeaderRight(a) && GlobalRight(a) && HeaderRight(b) && GlobalRight(b)
    ensures a == b
  {
    hide Sum, BigEndian;
    assert Header(a) == Header(b);
    SameRemainder(Sum(Header(a)) + 25, a[HEADER_SUM], b[HEADER_SUM]);
    assert Others(a) == Others(b);
    SameWord(a[GLOBAL_SUM], a[GLOBAL_SUM + 1], b[GLOBAL_SUM], b[GLOBAL_SUM + 1]);
  }

  lemma SameRemainder(n: nat, a: Byte, b: Byte)
    requires (n + a) % 0x100 == 0 && (n + b) % 0x100 == 0
    ensures a == b
  {
  }

  lemma SameWord(h: Byte, l: Byte, h': Byte, l': Byte)
    requires BigEndian(h, l) == BigEndian(h', l')
    ensures h == h' && l == l'
  {
  }

  lemma Cancels(n: int)
    ensures (n + 25 + (-n - 25) % 0x100) % 0x100 == 0
  {
  }

  // A repaired image has both checksums right and differs in no other byte.
  lemma RepairIsRight(rom: Bytes)
    requires SMALLEST <= |rom|
    ensures SameOutside(rom, Repaired(rom))
    ensures HeaderRight(Repaired(rom)) && GlobalRight(Repaired(rom))
  {
    var r := Repaired(rom);
    assert Header(r) == Header(rom);
    Cancels(Sum(Header(rom)));
    var h := rom[HEADER_SUM := HeaderByte(rom)];
    assert Others(r) == Others(h);
  }

  lemma RepairTwice(rom: Bytes)
    requires SMALLEST <= |rom|
    ensures Repaired(Repaired(rom)) == Repaired(rom)
  {
    RepairIsRight(rom);
    RepairIsTheOnlyWay(Repaired(rom), Repaired(rom));
  }

  // The whole image is the other bytes and the two of the checksum.
  lemma SumOfOthers(rom: Bytes)
    requires SMALLEST <= |rom|
    ensures Sum(rom) == Sum(Others(rom)) + rom[GLOBAL_SUM] + rom[GLOBAL_SUM + 1]
  {
    var pair := [rom[GLOBAL_SUM], rom[GLOBAL_SUM + 1]];
    assert rom == (rom[..GLOBAL_SUM] + pair) + rom[SMALLEST..];
    SumConcat(rom[..GLOBAL_SUM] + pair, rom[SMALLEST..]);
    SumConcat(rom[..GLOBAL_SUM], pair);
    SumConcat(rom[..GLOBAL_SUM], rom[SMALLEST..]);
    assert pair[..1] == [rom[GLOBAL_SUM]] && pair[..1][..0] == [];
  }

  // One step of the header loop keeps the running closed form.
  lemma HeaderStep(n: int, k: int, s: Byte, b: Byte)
    requires s == (-n - k) % 0x100
    ensures (s - b - 1) % 0x100 == (-(n + b) - (k + 1)) % 0x100
  {
  }

  // The sum of a whole image, as the built-in sum runs over it.
  method Total(rom: array<Byte>) returns (total: nat)
    ensures total == Sum(rom[..])
  {
    total := 0;
    for i := 0 to rom.Length
      invariant total == Sum(rom[..i])
    {
      assert rom[..i + 1][..i] == rom[..i];
      total := total + rom[i];
    }
    assert rom[..rom.Length] == rom[..];
  }

  // The header loop: subtract each byte and one, wrapping at a byte.
  method HeaderLoop(rom: array<Byte>) returns (s: Byte)
    requires HEADER_SUM <= rom.Length
    ensures s == HeaderByte(rom[..])
  {
    s := 0;
    for i := HEADER_FROM to HEADER_SUM
      invariant s == (-(Sum(rom[HEADER_FROM..i]) as int) - (i - HEADER_FROM)) % 0x100
    {
      assert rom[HEADER_FROM..i + 1][..i - HEADER_FROM] == rom[HEADER_FROM..i];
      HeaderStep(Sum(rom[HEADER_FROM..i]), i - HEADER_FROM, s, rom[i]);
      s := (s - rom[i] - 1) % 0x100;
    }
    assert rom[HEADER_FROM..HEADER_SUM] == Header(rom[..]);
  }

  // Both checksums, in place. An image too short to hold them fails at the first
  // byte it lacks, possibly after its header checksum was already written.
  method RepairChecksums(rom: array<Byte>) returns (ok: bool)
    modifies rom
    ensures ok <==> SMALLEST <= rom.Length
    ensures ok ==> rom[..] == Repaired(old(rom[..]))
    ensures !ok ==> forall i :: 0 <= i < rom.Length ==>
      rom[i] == if i == HEADER_SUM then HeaderByte(old(rom[..])) else old(rom[i])
  {
    if rom.Length < HEADER_SUM {
      return false;
    }
    ghost var before := rom[..];
    var s := HeaderLoop(rom);
    if rom.Length <= HEADER_SUM {
      return false;
    }
    rom[HEADER_SUM] := s;
    assert rom[..] == before[HEADER_SUM := s];
    var total := Total(rom);
    if rom.Length < SMALLEST {
      return false;
    }
    WriteGlobal(rom, total);
    ok := true;
  }

  method WriteGlobal(rom: array<Byte>, total: nat)
    requires SMALLEST <= rom.Length && total == Sum(rom[..])
    modifies rom
    ensures rom[..] == WithGlobal(old(rom[..]))
  {
    var gs := total % 0x1_0000;
    gs := (gs - rom[GLOBAL_SUM] - rom[GLOBAL_SUM + 1]) % 0x1_0000;
    ghost var was := rom[..];
    SumOfOthers(was);
    Wraps(total, Sum(Others(was)), rom[GLOBAL_SUM], rom[GLOBAL_SUM + 1]);
    var high: Byte, low: Byte := gs / 0x100 % 0x100, gs % 0x100;
    assert high == gs / 0x100;
    rom[GLOBAL_SUM] := high;
    rom[GLOBAL_SUM + 1] := low;
    assert forall i :: 0 <= i < rom.Length ==> rom[i] == WithGlobal(was)[i];
  }

  lemma Wraps(total: nat, others: nat, h: Byte, l: Byte)
    requires total == others + h + l
    ensures (total % 0x1_0000 - h - l) % 0x1_0000 == others % 0x1_0000
  {
  }
}
