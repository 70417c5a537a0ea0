// Small vocabulary shared by every module: optional values and memory cells.
module Common {
  datatype Option<+T> = None | Some(value: T)

  // One byte of emulator memory or of a file.
  type Byte = b: int | 0 <= b < 0x100

  // A two-byte big-endian quantity such as a hit-point counter.
  type Word = w: int | 0 <= w < 0x1_0000

  type Bytes = seq<Byte>

  // The two owner processes of one link session.
  datatype Role = Listen | Connect

  function Other(r: Role): Role {
    if r == Listen then Connect else Listen
  }

  datatype Version = Red | Blue | RedColor | BlueColor | Yellow

  function BigEndian(high: Byte, low: Byte): Word {
    high * 0x100 + low
  }

  // Bit tests the drivers write as masks.
  predicate AButtonWatched(keys: Byte) { keys % 2 == 1 }

  predicate InputBlocked(statusFlags5: Byte) {
    statusFlags5 / 0x80 % 2 == 1 || statusFlags5 / 4 % 2 == 1
  }

  lemma SubsetIsNoLarger<T>(a: set<T>, b: set<T>)
    requires a <= b
    ensures |a| <= |b|
  {
    assert b == a + (b - a);
  }

  lemma AtMostOne<T>(s: set<T>, x: T, y: T)
    requires |s| <= 1 && x in s && y in s
    ensures x == y
  {
    if x != y { SubsetIsNoLarger({x, y}, s); }
  }

  // A sequence filled up to a size.
  function Padded<T>(s: seq<T>, size: nat, filler: T): (r: seq<T>)
    requires |s| <= size
    ensures |r| == size && r[..|s|] == s
    ensures forall i :: |s| <= i < size ==> r[i] == filler
  {
    s + seq(size - |s|, _ => filler)
  }
}
