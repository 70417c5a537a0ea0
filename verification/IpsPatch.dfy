// IPS patching (scripts/apply_color_patch.py): the slice-driven reader that the
// script runs, the record grammar it accepts, and what a patched image contains.
module IpsPatch {
  import opened Common

  datatype Record =
    | Data(offset: nat, bytes: Bytes)
    | Run(offset: nat, count: nat, fill: Byte)

  datatype Outcome = Patched(image: Bytes) | NotAnIpsFile | IndexOutOfRange

  const PATCH: Bytes := [0x50, 0x41, 0x54, 0x43, 0x48]
  const EOF: Bytes := [0x45, 0x4F, 0x46]
  const EOF_OFFSET: nat := 0x454F46

  // ---------------------------------------------------------------- images

  function Zeros(n: nat): (z: Bytes)
    ensures |z| == n && forall k :: 0 <= k < n ==> z[k] == 0
  {
    seq(n, _ => 0)
  }

  function Grown(image: Bytes, end: nat): (g: Bytes)
    ensures |g| == if |image| < end then end else |image|
    ensures forall p :: 0 <= p < |image| ==> g[p] == image[p]
    ensures forall p :: |image| <= p < |g| ==> g[p] == 0
  {
    if |image| < end then image + Zeros(end - |image|) else image
  }

  function Size(r: Record): nat {
    match r
    case Data(_, bytes) => |bytes|
    case Run(_, count, _) => count
  }

  predicate Writes(r: Record, p: nat) { r.offset <= p < r.offset + Size(r) }

  function Written(r: Record, p: nat): Byte
    requires Writes(r, p)
  {
    match r
    case Data(offset, bytes) => bytes[p - offset]
    case Run(_, _, fill) => fill
  }

  function Apply(image: Bytes, r: Record): (out: Bytes)
    ensures |out| == |Grown(image, r.offset + Size(r))|
  {
    var grown := Grown(image, r.offset + Size(r));
    seq(|grown|, p requires 0 <= p < |grown| => if Writes(r, p) then Written(r, p) else grown[p])
  }

  function Fold(image: Bytes, records: seq<Record>): Bytes {
    if records == [] then image
    else Apply(Fold(image, records[..|records| - 1]), records[|records| - 1])
  }

  function Reach(length: nat, records: seq<Record>): nat {
    if records == [] then length
    else
      var before := Reach(length, records[..|records| - 1]);
      var end := records[|records| - 1].offset + Size(records[|records| - 1]);
      if before < end then end else before
  }

  // The last record that writes a position, if any does.
  function LastWriter(records: seq<Record>, p: nat): (w: Option<nat>)
    ensures w.Some? ==> w.value < |records| && Writes(records[w.value], p)
    ensures w.Some? ==> forall k :: w.value < k < |records| ==> !Writes(records[k], p)
    ensures w.None? ==> forall k :: 0 <= k < |records| ==> !Writes(records[k], p)
  {
    if records == [] then None
    else if Writes(records[|records| - 1], p) then Some(|records| - 1)
    else LastWriter(records[..|records| - 1], p)
  }

  // A patched image is as long as the image and the furthest record end, and each
  // byte is what the last record writing it says, else the original byte, else zero.
  lemma {:induction false} LastWriterWins(image: Bytes, records: seq<Record>)
    ensures |Fold(image, records)| == Reach(|image|, records)
    ensures forall p :: 0 <= p < |Fold(image, records)| ==>
      Fold(image, records)[p] ==
        match LastWriter(records, p) {
          case Some(k) => Written(records[k], p)
          case None => if p < |image| then image[p] else 0
        }
  {
    if records != [] {
      var init, last := records[..|records| - 1], records[|records| - 1];
      LastWriterWins(image, init);
      forall p | |Fold(image, init)| <= p < |Fold(image, records)| && !Writes(last, p)
        ensures LastWriter(init, p) == None && |image| <= p
      {
        BeyondReach(|image|, init, p);
      }
    }
  }

  // Nothing is written at or past the end of the image.
  lemma {:induction false} BeyondReach(length: nat, records: seq<Record>, p: nat)
    requires Reach(length, records) <= p
    ensures length <= p && LastWriter(records, p) == None
  {
    if records != [] { BeyondReach(length, records[..|records| - 1], p); }
  }

  // --------------------------------------------------------------- the grammar

  function Decode(s: Bytes): nat {
    if s == [] then 0 else Decode(s[..|s| - 1]) * 0x100 + s[|s| - 1]
  }

  // Python's slice: out-of-range ends are clipped.
  function Slice(s: Bytes, from: nat, to: nat): Bytes
    requires from <= to
  {
    if |s| <= from then [] else s[from..if to <= |s| then to else |s|]
  }

  datatype Stream = Stream(records: seq<Record>, end: nat)

  function Prepend(r: Record, rest: Option<Stream>): Option<Stream> {
    match rest
    case Some(s) => Some(Stream([r] + s.records, s.end))
    case None => None
  }

  // The record stream from position `i` through its end marker, if it is complete.
  function Parse(ips: Bytes, i: nat): Option<Stream>
    decreases if i < |ips| then |ips| - i else 0
  {
    if |ips| < i + 3 then None
    else if ips[i..i + 3] == EOF then Some(Stream([], i + 3))
    else if |ips| < i + 5 then None
    else
      var offset, size := Decode(ips[i..i + 3]), Decode(ips[i + 3..i + 5]);
      if size == 0 then
        if |ips| < i + 8 then None
        else Prepend(Run(offset, Decode(ips[i + 5..i + 7]), ips[i + 7]), Parse(ips, i + 8))
      else if |ips| < i + 5 + size then None
      else Prepend(Data(offset, ips[i + 5..i + 5 + size]), Parse(ips, i + 5 + size))
  }

  // The optional three bytes after the end marker cut the image to a length.
  function Truncated(ips: Bytes, end: nat, image: Bytes): Bytes {
    if end + 3 == |ips| && Decode(ips[end..]) < |image| then image[..Decode(ips[end..])] else image
  }

  function Patch(rom: Bytes, ips: Bytes): Outcome {
    if |ips| < 5 || ips[..5] != PATCH then NotAnIpsFile
    else match Parse(ips, 5)
      case None => IndexOutOfRange
      case Some(s) => Patched(Truncated(ips, s.end, Fold(rom, s.records)))
  }

  // ------------------------------------------------------------ the patch loop

  function Chain(done: seq<Record>, rest: Option<Stream>): Option<Stream> {
    match rest
    case Some(s) => Some(Stream(done + s.records, s.end))
    case None => None
  }

  lemma ChainSnoc(done: seq<Record>, r: Record, rest: Option<Stream>)
    ensures Chain(done, Prepend(r, rest)) == Chain(done + [r], rest)
  {
    if rest.Some? { assert done + ([r] + rest.value.records) == done + [r] + rest.value.records; }
  }

  // Bytes written one at a time from the start of a run.
  method WriteRun(image: Bytes, offset: nat, count: nat, fill: Byte) returns (out: Bytes)
    requires offset + count <= |image|
    ensures |out| == |image|
    ensures forall p :: 0 <= p < |out| ==> out[p] == if offset <= p < offset + count then fill else image[p]
  {
    out := image;
    for k := 0 to count
      invariant |out| == |image|
      invariant forall p :: 0 <= p < |out| ==> out[p] == if offset <= p < offset + k then fill else image[p]
    {
      out := out[offset + k := fill];
    }
  }

  // The reader at position `i`: the records read so far are applied and the rest of
  // the stream is still to parse, or the stream has already ended early.
  ghost predicate ReadTo(rom: Bytes, ips: Bytes, i: nat, records: seq<Record>, out: Bytes) {
    && (i <= |ips| ==> Parse(ips, 5) == Chain(records, Parse(ips, i)) && out == Fold(rom, records))
    && (|ips| < i ==> Parse(ips, 5) == None)
  }

  lemma ReadOne(rom: Bytes, ips: Bytes, i: nat, records: seq<Record>, out: Bytes, r: Record, next: nat)
    requires ReadTo(rom, ips, i, records, out) && i <= next <= |ips|
    requires Parse(ips, i) == Prepend(r, Parse(ips, next))
    ensures ReadTo(rom, ips, next, records + [r], Apply(out, r))
  {
    ChainSnoc(records, r, Parse(ips, next));
    assert (records + [r])[..|records|] == records;
  }

  function RunAt(ips: Bytes, i: nat): Record
    requires i + 7 < |ips|
  {
    Run(Decode(Slice(ips, i, i + 3)), Decode(Slice(ips, i + 5, i + 7)), ips[i + 7])
  }

  function DataAt(ips: Bytes, i: nat, size: nat): Record {
    Data(Decode(Slice(ips, i, i + 3)), Slice(ips, i + 5, i + 5 + size))
  }

  lemma ParsesRun(ips: Bytes, i: nat)
    requires Slice(ips, i, i + 3) != EOF && Decode(Slice(ips, i + 3, i + 5)) == 0
    ensures |ips| <= i + 7 ==> Parse(ips, i) == None
    ensures i + 7 < |ips| ==> Parse(ips, i) == Prepend(RunAt(ips, i), Parse(ips, i + 8))
  {
    hide Decode;
  }

  lemma ParsesData(ips: Bytes, i: nat, size: nat)
    requires Slice(ips, i, i + 3) != EOF && Decode(Slice(ips, i + 3, i + 5)) == size != 0
    ensures |ips| < i + 5 + size ==> Parse(ips, i) == None
    ensures i + 5 + size <= |ips| ==> |DataAt(ips, i, size).bytes| == size
    ensures i + 5 + size <= |ips| ==> Parse(ips, i) == Prepend(DataAt(ips, i, size), Parse(ips, i + 5 + size))
  {
    hide Decode;
  }

  lemma ReadRun(rom: Bytes, ips: Bytes, i: nat, records: seq<Record>, out: Bytes)
    requires ReadTo(rom, ips, i, records, out)
    requires Slice(ips, i, i + 3) != EOF && Decode(Slice(ips, i + 3, i + 5)) == 0
    ensures |ips| <= i + 7 ==> Parse(ips, 5) == None
    ensures i + 7 < |ips| ==> ReadTo(rom, ips, i + 8, records + [RunAt(ips, i)], Apply(out, RunAt(ips, i)))
  {
    hide Decode, Parse, Apply, Fold, Slice;
    ParsesRun(ips, i);
    if i + 7 < |ips| {
      ReadOne(rom, ips, i, records, out, RunAt(ips, i), i + 8);
    }
  }

  lemma ReadData(rom: Bytes, ips: Bytes, i: nat, records: seq<Record>, out: Bytes, size: nat, image: Bytes)
    requires ReadTo(rom, ips, i, records, out)
    requires Slice(ips, i, i + 3) != EOF && Decode(Slice(ips, i + 3, i + 5)) == size != 0
    requires |DataAt(ips, i, size).bytes| == size ==> image == Apply(out, DataAt(ips, i, size))
    ensures ReadTo(rom, ips, i + 5 + size, records + [DataAt(ips, i, size)], image)
  {
    hide Decode, Parse, Apply, Fold, Slice, EOF;
    ParsesData(ips, i, size);
    if i + 5 + size <= |ips| {
      ReadOne(rom, ips, i, records, out, DataAt(ips, i, size), i + 5 + size);
    }
  }

  // A stretch of the grown image is replaced by the bytes read, however many.
  method ApplyData(image: Bytes, offset: nat, size: nat, data: Bytes) returns (out: Bytes)
    ensures |data| == size ==> out == Apply(image, Data(offset, data))
  {
    var grown := Grown(image, offset + size);
    out := grown[..offset] + data + grown[offset + size..];
  }

  lemma PastTheEnd(ips: Bytes, i: nat)
    requires |ips| < i
    ensures Decode(Slice(ips, i + 3, i + 5)) == 0
  {
  }

  lemma Start(rom: Bytes, ips: Bytes)
    requires Slice(ips, 0, 5) == PATCH
    ensures |ips| >= 5 && ips[..5] == PATCH && ReadTo(rom, ips, 5, [], rom)
  {
    assert |PATCH| == 5;
    var rest := Parse(ips, 5);
    if rest.Some? { assert [] + rest.value.records == rest.value.records; }
  }

  // The record loop as the script runs it: unchecked slices, so a stream that ends
  // early keeps reading empty slices until the byte of a run is missing.
  method ReadRecords(rom: Bytes, ips: Bytes) returns (image: Option<Bytes>, end: nat)
    requires Slice(ips, 0, 5) == PATCH
    ensures image.None? ==> Parse(ips, 5) == None
    ensures image.Some? ==>
      Parse(ips, 5).Some? && Parse(ips, 5).value.end == end && image.value == Fold(rom, Parse(ips, 5).value.records)
  {
    hide Slice, Decode, Parse, Fold, Apply, ReadTo, Grown, EOF, PATCH;
    var out, i := rom, 5;
    ghost var records: seq<Record> := [];
    Start(rom, ips);
    while Slice(ips, i, i + 3) != EOF
      invariant ReadTo(rom, ips, i, records, out)
      decreases if i <= |ips| then |ips| - i + 1 else 0
    {
      if |ips| < i { PastTheEnd(ips, i); }
      var off, size := Decode(Slice(ips, i, i + 3)), Decode(Slice(ips, i + 3, i + 5));
      if size == 0 {
        ReadRun(rom, ips, i, records, out);
        var runSize := Decode(Slice(ips, i + 5, i + 7));
        if |ips| <= i + 7 {
          return None, i + 7;
        }
        out := ApplyRun(out, off, runSize, ips[i + 7]);
        records := records + [RunAt(ips, i)];
        i := i + 8;
      } else {
        var data := Slice(ips, i + 5, i + 5 + size);
        ghost var before := out;
        out := ApplyData(out, off, size, data);
        ReadData(rom, ips, i, records, before, size, out);
        records := records + [DataAt(ips, i, size)];
        i := i + 5 + size;
      }
    }
    EndReached(rom, ips, i, records, out);
    return Some(out), i + 3;
  }

  // The whole patcher: header, records, then the optional cut.
  method ApplyIps(rom: Bytes, ips: Bytes) returns (r: Outcome)
    ensures r == Patch(rom, ips)
  {
    assert |ips| >= 5 ==> Slice(ips, 0, 5) == ips[..5];
    if Slice(ips, 0, 5) != PATCH {
      return NotAnIpsFile;
    }
    var image, i := ReadRecords(rom, ips);
    if image.None? {
      return IndexOutOfRange;
    }
    var out := image.value;
    ParseStaysInside(ips, 5);
    TruncatedSlices(ips, i, out);
    if i + 3 == |ips| {
      out := Slice(out, 0, Decode(Slice(ips, i, i + 3)));
    }
    r := Patched(out);
  }

  lemma {:induction false} ParseStaysInside(ips: Bytes, i: nat)
    ensures Parse(ips, i).Some? ==> i < Parse(ips, i).value.end <= |ips|
    decreases if i < |ips| then |ips| - i else 0
  {
    hide Decode;
    if i + 8 <= |ips| { ParseStaysInside(ips, i + 8); }
    if i + 5 <= |ips| {
      var size := Decode(ips[i + 3..i + 5]);
      if i + 5 + size <= |ips| { ParseStaysInside(ips, i + 5 + size); }
    }
  }

  lemma TruncatedSlices(ips: Bytes, end: nat, image: Bytes)
    requires end <= |ips|
    ensures Truncated(ips, end, image) ==
      if end + 3 == |ips| then Slice(image, 0, Decode(Slice(ips, end, end + 3))) else image
  {
    if end + 3 == |ips| { assert Slice(ips, end, end + 3) == ips[end..]; }
  }

  lemma EndReached(rom: Bytes, ips: Bytes, i: nat, records: seq<Record>, out: Bytes)
    requires ReadTo(rom, ips, i, records, out) && Slice(ips, i, i + 3) == EOF
    ensures i + 3 <= |ips| && Parse(ips, 5) == Some(Stream(records, i + 3)) && out == Fold(rom, records)
  {
    assert |EOF| == 3;
    assert records + [] == records;
  }

  // Filling a stretch of a grown image one byte at a time applies the run.
  method ApplyRun(image: Bytes, offset: nat, count: nat, fill: Byte) returns (out: Bytes)
    ensures out == Apply(image, Run(offset, count, fill))
  {
    out := WriteRun(Grown(image, offset + count), offset, count, fill);
  }

  // ------------------------------------------------ which files are accepted

  // The big-endian text of a number in a given number of bytes.
  function Encode(n: nat, width: nat): (s: Bytes)
    ensures |s| == width
  {
    if width == 0 then [] else Encode(n / 0x100, width - 1) + [n % 0x100]
  }

  lemma {:induction false} DecodeEncode(n: nat, width: nat)
    requires n < Power(width)
    ensures Decode(Encode(n, width)) == n
  {
    if width > 0 { DecodeEncode(n / 0x100, width - 1); }
  }

  lemma {:induction false} EncodeDecode(s: Bytes)
    ensures Decode(s) < Power(|s|) && Encode(Decode(s), |s|) == s
  {
    if s != [] {
      EncodeDecode(s[..|s| - 1]);
      assert s == s[..|s| - 1] + [s[|s| - 1]];
    }
  }

  function Power(width: nat): nat { if width == 0 then 1 else 0x100 * Power(width - 1) }

  // A record the format can hold: offsets have three bytes, sizes two, and a data
  // record is not empty, since size zero announces a run.
  predicate Representable(r: Record) {
    && r.offset < Power(3) && Size(r) < Power(2)
    && (r.Data? ==> r.bytes != [])
  }

  // A record that is read back as one: its offset does not spell the end marker.
  predicate Readable(r: Record) { Representable(r) && r.offset != EOF_OFFSET }

  function Write(r: Record): Bytes {
    match r
    case Data(offset, bytes) => Encode(offset, 3) + (Encode(|bytes|, 2) + bytes)
    case Run(offset, count, fill) => Encode(offset, 3) + (Encode(0, 2) + (Encode(count, 2) + [fill]))
  }

  function WriteAll(records: seq<Record>): Bytes {
    if records == [] then [] else Write(records[0]) + WriteAll(records[1..])
  }

  predicate AllReadable(records: seq<Record>) {
    forall k :: 0 <= k < |records| ==> Readable(records[k])
  }

  // The text stands at a position of the file.
  predicate At(ips: Bytes, i: nat, text: Bytes) {
    i + |text| <= |ips| && ips[i..i + |text|] == text
  }

  lemma AtSplit(ips: Bytes, i: nat, first: Bytes, second: Bytes)
    ensures At(ips, i, first + second) <==> At(ips, i, first) && At(ips, i + |first|, second)
  {
    if i + |first| + |second| <= |ips| {
      var both := ips[i..i + |first| + |second|];
      assert both[..|first|] == ips[i..i + |first|] && both[|first|..] == ips[i + |first|..i + |first| + |second|];
      assert both == both[..|first|] + both[|first|..];
      assert (first + second)[..|first|] == first && (first + second)[|first|..] == second;
    }
  }

  lemma AtIs(ips: Bytes, i: nat, text: Bytes, width: nat)
    requires |text| == width
    ensures At(ips, i, text) <==> i + width <= |ips| && ips[i..i + width] == text
  {
  }

  lemma OffsetSpellsEof(offset: nat)
    requires offset < Power(3)
    ensures Encode(offset, 3) == EOF <==> offset == EOF_OFFSET
  {
    DecodeEncode(offset, 3);
    assert [0x45][..0] == [] && [0x45, 0x4F][..1] == [0x45] && EOF[..2] == [0x45, 0x4F];
    assert Decode([0x45, 0x4F]) == 0x454F;
    assert Decode(EOF) == EOF_OFFSET;
    EncodeDecode(EOF);
  }

  lemma DataFields(ips: Bytes, i: nat, offset: nat, bytes: Bytes)
    ensures |Write(Data(offset, bytes))| == 5 + |bytes|
    ensures At(ips, i, Write(Data(offset, bytes))) <==>
      && i + 5 + |bytes| <= |ips|
      && ips[i..i + 3] == Encode(offset, 3) && ips[i + 3..i + 5] == Encode(|bytes|, 2)
      && ips[i + 5..i + 5 + |bytes|] == bytes
  {
    hide At, Encode;
    AtSplit(ips, i, Encode(offset, 3), Encode(|bytes|, 2) + bytes);
    AtSplit(ips, i + 3, Encode(|bytes|, 2), bytes);
    AtIs(ips, i, Encode(offset, 3), 3);
    AtIs(ips, i + 3, Encode(|bytes|, 2), 2);
    AtIs(ips, i + 5, bytes, |bytes|);
  }

  lemma RunFields(ips: Bytes, i: nat, offset: nat, count: nat, fill: Byte)
    ensures |Write(Run(offset, count, fill))| == 8
    ensures At(ips, i, Write(Run(offset, count, fill))) <==>
      && i + 8 <= |ips|
      && ips[i..i + 3] == Encode(offset, 3) && ips[i + 3..i + 5] == Encode(0, 2)
      && ips[i + 5..i + 7] == Encode(count, 2) && ips[i + 7..i + 8] == [fill]
  {
    hide At, Encode;
    AtSplit(ips, i, Encode(offset, 3), Encode(0, 2) + (Encode(count, 2) + [fill]));
    AtSplit(ips, i + 3, Encode(0, 2), Encode(count, 2) + [fill]);
    AtSplit(ips, i + 5, Encode(count, 2), [fill]);
    AtIs(ips, i, Encode(offset, 3), 3);
    AtIs(ips, i + 3, Encode(0, 2), 2);
    AtIs(ips, i + 5, Encode(count, 2), 2);
    AtIs(ips, i + 7, [fill], 1);
  }

  // Reading a written record gives it back and goes on behind it.
  lemma ReadWritten(ips: Bytes, i: nat, r: Record)
    requires Readable(r) && At(ips, i, Write(r))
    ensures Parse(ips, i) == Prepend(r, Parse(ips, i + |Write(r)|))
  {
    match r {
      case Data(offset, bytes) => ReadWrittenData(ips, i, offset, bytes);
      case Run(offset, count, fill) => ReadWrittenRun(ips, i, offset, count, fill);
    }
    hide Encode, Decode, Readable, At, Write, Parse;
  }

  lemma ReadWrittenData(ips: Bytes, i: nat, offset: nat, bytes: Bytes)
    requires Readable(Data(offset, bytes)) && At(ips, i, Write(Data(offset, bytes)))
    ensures Parse(ips, i) == Prepend(Data(offset, bytes), Parse(ips, i + |Write(Data(offset, bytes))|))
  {
    assert offset < Power(3) && offset != EOF_OFFSET && 0 < |bytes| < Power(2);
    hide *;
    DecodeEncode(offset, 3);
    OffsetSpellsEof(offset);
    DecodeEncode(|bytes|, 2);
    DataFields(ips, i, offset, bytes);
    ParsesFields(ips, i, offset, bytes);
  }

  lemma ParsesFields(ips: Bytes, i: nat, offset: nat, bytes: Bytes)
    requires i + 5 + |bytes| <= |ips| && ips[i..i + 3] != EOF && bytes != []
    requires Decode(ips[i..i + 3]) == offset && Decode(ips[i + 3..i + 5]) == |bytes| && ips[i + 5..i + 5 + |bytes|] == bytes
    ensures Parse(ips, i) == Prepend(Data(offset, bytes), Parse(ips, i + 5 + |bytes|))
  {
    hide Decode;
  }

  lemma ReadWrittenRun(ips: Bytes, i: nat, offset: nat, count: nat, fill: Byte)
    requires Readable(Run(offset, count, fill)) && At(ips, i, Write(Run(offset, count, fill)))
    ensures Parse(ips, i) == Prepend(Run(offset, count, fill), Parse(ips, i + |Write(Run(offset, count, fill))|))
  {
    DecodeEncode(offset, 3);
    OffsetSpellsEof(offset);
    DecodeEncode(0, 2);
    DecodeEncode(count, 2);
    RunFields(ips, i, offset, count, fill);
    hide Encode, Decode, At, Write;
    assert ips[i + 7] == ips[i + 7..i + 8][0];
  }

  // A written stream reads back as its records.
  lemma {:induction false} RoundTrip(ips: Bytes, i: nat, records: seq<Record>)
    requires AllReadable(records) && At(ips, i, WriteAll(records) + EOF)
    ensures Parse(ips, i) == Some(Stream(records, i + |WriteAll(records)| + 3))
    decreases |records|
  {
    hide Write, Readable, Parse, At;
    if records == [] {
      assert WriteAll(records) + EOF == EOF;
      MarkerEnds(ips, i);
    } else {
      var r, rest := records[0], records[1..];
      assert WriteAll(records) + EOF == Write(r) + (WriteAll(rest) + EOF);
      AtSplit(ips, i, Write(r), WriteAll(rest) + EOF);
      ReadWritten(ips, i, r);
      RoundTrip(ips, i + |Write(r)|, rest);
      assert [r] + rest == records;
    }
  }

  lemma MarkerEnds(ips: Bytes, i: nat)
    requires At(ips, i, EOF)
    ensures Parse(ips, i) == Some(Stream([], i + 3))
  {
  }

  // Whatever parses was written: the accepted bytes are exactly the text of the
  // records found, closed by the end marker.
  lemma {:induction false} ParsedWasWritten(ips: Bytes, i: nat)
    requires Parse(ips, i).Some?
    ensures var s := Parse(ips, i).value;
      AllReadable(s.records) && s.end == i + |WriteAll(s.records)| + 3 && At(ips, i, WriteAll(s.records) + EOF)
    decreases if i < |ips| then |ips| - i else 0
  {
    hide Decode, Write, Readable;
    var s := Parse(ips, i).value;
    if ips[i..i + 3] == EOF {
      assert WriteAll([]) + EOF == EOF;
    } else {
      var next := FirstWasWritten(ips, i);
      hide Parse, At;
      var r, rest := s.records[0], s.records[1..];
      ParsedWasWritten(ips, next);
      assert rest == Parse(ips, next).value.records;
      AtSplit(ips, i, Write(r), WriteAll(rest) + EOF);
      assert WriteAll(s.records) + EOF == Write(r) + (WriteAll(rest) + EOF);
    }
  }

  lemma FirstWasWritten(ips: Bytes, i: nat) returns (next: nat)
    requires Parse(ips, i).Some? && ips[i..i + 3] != EOF
    ensures Parse(ips, i).value.records != []
    ensures var r := Parse(ips, i).value.records[0];
      && Readable(r) && At(ips, i, Write(r)) && next == i + |Write(r)|
      && Parse(ips, i) == Prepend(r, Parse(ips, next))
    ensures i < next <= |ips|
  {
    var size := Decode(ips[i + 3..i + 5]);
    var r := Parse(ips, i).value.records[0];
    EncodeDecode(ips[i..i + 3]);
    EncodeDecode(ips[i + 3..i + 5]);
    OffsetSpellsEof(r.offset);
    next := i + |Write(r)|;
    if size == 0 {
      EncodeDecode(ips[i + 5..i + 7]);
      RunFields(ips, i, r.offset, r.count, r.fill);
    } else {
      DataFields(ips, i, r.offset, r.bytes);
    }
    hide Encode, Decode, Write, At;
  }

  // The file is the header, the text of the records and the end marker, with
  // anything at all behind it.
  ghost predicate WrittenAs(ips: Bytes, records: seq<Record>) {
    At(ips, 0, PATCH) && AllReadable(records) && At(ips, 5, WriteAll(records) + EOF)
  }

  // The patcher accepts exactly the well-formed files, and patches by their records.
  lemma AcceptsExactlyWritten(rom: Bytes, ips: Bytes, image: Bytes)
    ensures Patch(rom, ips) == Patched(image) <==>
      (exists records :: WrittenAs(ips, records)
        && image == Truncated(ips, 8 + |WriteAll(records)|, Fold(rom, records)))
  {
    hide Parse, WriteAll, Fold, AllReadable, Truncated;
    if Patch(rom, ips) == Patched(image) {
      ParsedWasWritten(ips, 5);
      assert WrittenAs(ips, Parse(ips, 5).value.records);
    }
    forall records | WrittenAs(ips, records)
      ensures Patch(rom, ips) == Patched(Truncated(ips, 8 + |WriteAll(records)|, Fold(rom, records)))
    {
      RoundTrip(ips, 5, records);
    }
  }

  // A record whose offset spells the end marker ends the stream: it and everything
  // behind it are lost.
  lemma MarkerOffsetEndsStream(ips: Bytes, i: nat, records: seq<Record>, marker: Record)
    requires AllReadable(records) && marker.offset == EOF_OFFSET
    requires At(ips, i, WriteAll(records) + Write(marker))
    ensures Parse(ips, i) == Some(Stream(records, i + |WriteAll(records)| + 3))
  {
    OffsetSpellsEof(EOF_OFFSET);
    var rest := Write(marker)[3..];
    assert Write(marker) == EOF + rest;
    hide Write, Parse, Encode;
    assert WriteAll(records) + Write(marker) == (WriteAll(records) + EOF) + rest;
    AtSplit(ips, i, WriteAll(records) + EOF, rest);
    RoundTrip(ips, i, records);
  }

  // The text of any representable records reads back in full exactly when none of
  // them starts at the offset spelled by the end marker.
  lemma ReadsBackExactlyWhen(ips: Bytes, i: nat, records: seq<Record>)
    requires forall k :: 0 <= k < |records| ==> Representable(records[k])
    requires At(ips, i, WriteAll(records) + EOF)
    ensures (Parse(ips, i) == Some(Stream(records, i + |WriteAll(records)| + 3)))
      <==> (forall k :: 0 <= k < |records| ==> records[k].offset != EOF_OFFSET)
  {
    hide Representable, Parse;
    if AllReadable(records) {
      RoundTrip(ips, i, records);
    } else if Parse(ips, i).Some? {
      ParsedWasWritten(ips, i);
    }
  }
}
