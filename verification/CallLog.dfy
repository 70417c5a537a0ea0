// The bounded call log of one owner, the reader that qualifies it, and the bounded
// standard-error drain (scripts/_probe_timed_rom_pair_support.py).
module CallLog {
  import opened Common

  const LINE_FEED: Byte := 0x0A
  const CALL_LOG_BYTE_LIMIT: nat := 16 * 1024 * 1024
  const READ_BLOCK: nat := 65536
  const STDERR_LIMIT: nat := 65536
  const STDERR_BLOCK: nat := 8192

  // The digest of a byte string; which one it is does not matter here.
  type Digest = Bytes
  type Hash = Bytes -> Digest

  function Lines(s: Bytes): nat {
    if s == [] then 0 else Lines(s[..|s| - 1]) + if s[|s| - 1] == LINE_FEED then 1 else 0
  }

  lemma {:induction false} LinesConcat(a: Bytes, b: Bytes)
    ensures Lines(a + b) == Lines(a) + Lines(b)
  {
    if b == [] {
      assert a + b == a;
    } else {
      LinesConcat(a, b[..|b| - 1]);
      assert (a + b)[..|a + b| - 1] == a + b[..|b| - 1];
    }
  }

  predicate EndsLine(s: Bytes) { s != [] ==> s[|s| - 1] == LINE_FEED }

  // One encoded call: a line without inner line feeds, closed by one.
  predicate IsRecord(p: Bytes) { p != [] && EndsLine(p) && LINE_FEED !in p[..|p| - 1] }

  lemma {:induction false} NoLines(s: Bytes)
    requires LINE_FEED !in s
    ensures Lines(s) == 0
  {
    if s != [] { NoLines(s[..|s| - 1]); }
  }

  lemma RecordIsOneLine(p: Bytes)
    requires IsRecord(p)
    ensures Lines(p) == 1
  {
    NoLines(p[..|p| - 1]);
  }

  // A write that stopped early has put at most the one line feed of its record.
  lemma PartOfRecord(p: Bytes, n: nat)
    requires IsRecord(p) && n <= |p|
    ensures Lines(p[..n]) <= 1
  {
    LinesConcat(p[..n], p[n..]);
    assert p == p[..n] + p[n..];
    RecordIsOneLine(p);
  }

  function Concat(records: seq<Bytes>): Bytes {
    if records == [] then [] else Concat(records[..|records| - 1]) + records[|records| - 1]
  }

  lemma {:induction false} RecordsAreLines(records: seq<Bytes>)
    requires forall k :: 0 <= k < |records| ==> IsRecord(records[k])
    ensures Lines(Concat(records)) == |records| && EndsLine(Concat(records))
  {
    if records != [] {
      var init, last := records[..|records| - 1], records[|records| - 1];
      RecordsAreLines(init);
      RecordIsOneLine(last);
      LinesConcat(Concat(init), last);
    }
  }

  datatype Fault = NotSerialisable | CapExceeded | NoProgress | WriteFailed | FlushFailed | CloseFailed

  datatype Manifest = Manifest(
    complete: bool, failed: bool, bytes: Option<int>, recordCount: Option<int>, sha256: Option<Digest>)

  // Append-only evidence of one owner's calls. The disk may take any part of a write,
  // or fail it; whatever it took is counted and hashed.
  class CallEvidenceLog {
    const byteLimit: nat
    var file: Bytes
    var bytes: nat
    var hashed: Bytes
    var recordCount: nat
    var error: Option<Fault>
    var complete: bool
    var isOpen: bool
    ghost var records: seq<Bytes>
    ghost var pending: Bytes
    ghost var partial: Bytes

    ghost predicate Valid()
      reads this
    {
      && bytes == |file| <= byteLimit
      && hashed == file
      && file == Concat(records) + partial
      && recordCount == |records|
      && (forall k :: 0 <= k < |records| ==> IsRecord(records[k]))
      && (error == None ==> partial == [])
      && (partial != [] ==> IsRecord(pending) && partial <= pending)
      && (complete ==> error == None && !isOpen)
    }

    constructor (limit: nat)
      requires limit > 0
      ensures Valid() && byteLimit == limit
      ensures file == [] && records == [] && error == None && isOpen && !complete
    {
      byteLimit := limit;
      file, bytes, hashed, recordCount := [], 0, [], 0;
      error, complete, isOpen := None, false, true;
      records, pending, partial := [], [], [];
    }

    // One call, or a call that could not be encoded. Afterwards either the whole
    // record is in the file, or the log has failed for good with a part of it.
    method Append(payload: Option<Bytes>) returns (ok: bool)
      requires Valid() && (payload.Some? ==> IsRecord(payload.value))
      modifies this
      ensures Valid()
      ensures ok ==> old(isOpen) && old(error) == None && payload.Some? && old(bytes) + |payload.value| <= byteLimit
      ensures ok ==> records == old(records) + [payload.value] && error == None
      ensures !ok ==> records == old(records)
      ensures old(error).Some? || !old(isOpen) ==> !ok && file == old(file) && error == old(error)
      ensures !ok && old(error) == None && old(isOpen) ==> error.Some?
      ensures old(file) <= file && isOpen == old(isOpen) && complete == old(complete)
    {
      if error.Some? || !isOpen {
        return false;
      }
      if payload == None {
        error := Some(NotSerialisable);
        return false;
      }
      if bytes + |payload.value| > byteLimit {
        error := Some(CapExceeded);
        return false;
      }
      pending := payload.value;
      var fault := WriteAll(payload.value);
      if fault.Some? {
        error := fault;
        return false;
      }
      if * {
        error := Some(FlushFailed);
        return false;
      }
      records, partial := records + [payload.value], [];
      recordCount := recordCount + 1;
      assert records[..|records| - 1] == old(records);
      ok := true;
    }

    // The write loop: every byte taken is hashed and counted before the next try.
    method WriteAll(payload: Bytes) returns (fault: Option<Fault>)
      requires isOpen && bytes == |file| && hashed == file && file == Concat(records) && partial == []
      requires bytes + |payload| <= byteLimit
      modifies this`file, this`bytes, this`hashed, this`partial
      ensures bytes == |file| <= byteLimit && hashed == file && file == Concat(records) + partial
      ensures partial <= payload
      ensures fault == None ==> partial == payload
    {
      var remaining := payload;
      while remaining != []
        invariant partial + remaining == payload
        invariant bytes == |file| && hashed == file && file == Concat(records) + partial
        decreases |remaining|
      {
        if * {
          return Some(WriteFailed);
        }
        var written: nat :| written <= |remaining|;
        if written == 0 {
          return Some(NoProgress);
        }
        file := file + remaining[..written];
        hashed := hashed + remaining[..written];
        bytes := bytes + written;
        partial := partial + remaining[..written];
        remaining := remaining[written..];
      }
      fault := None;
    }

    // Closing reports whether all evidence is in; a failing flush or close fails the
    // log, and an earlier failure is never taken back.
    method Close(requested: bool) returns (ok: bool)
      requires Valid()
      modifies this`isOpen, this`complete, this`error
      ensures Valid() && !isOpen
      ensures old(error).Some? ==> error.Some? && !complete
      ensures ok ==> error == old(error) && complete == (requested && error == None)
      ensures !ok ==> old(isOpen) && error.Some? && !complete
    {
      if isOpen {
        isOpen := false;
        if * {
          error, complete := Some(FlushFailed), false;
          return false;
        } else if * {
          error, complete := Some(CloseFailed), false;
          return false;
        }
      }
      complete := requested && error == None;
      ok := true;
    }

    function Snapshot(hash: Hash): Manifest
      reads this
    {
      Manifest(complete, error.Some?, Some(bytes), Some(recordCount), Some(hash(hashed)))
    }
  }

  // ----------------------------------------------------------- the bounded reader

  // What the reader opens: the size at the time of the check and the bytes it then
  // reads, which need not agree.
  datatype File = File(regular: bool, statSize: nat, content: Bytes)

  datatype Owner = Owner(callLog: Option<Manifest>, hasCounts: bool, total: Option<int>)

  datatype Verdict =
    | Accepted
    | ManifestMissing
    | Incomplete
    | ManifestMismatch
    | NotBoundedRegular
    | ExceedsCap
    | ContentMismatch

  predicate ManifestConsistent(m: Manifest, owner: Owner) {
    && m.bytes.Some? && 0 <= m.bytes.value <= CALL_LOG_BYTE_LIMIT
    && m.recordCount.Some? && m.recordCount.value >= 0
    && owner.hasCounts && m.recordCount == owner.total
  }

  predicate ContentMatches(m: Manifest, content: Bytes, hash: Hash) {
    && m.bytes == Some(|content|) && m.sha256 == Some(hash(content))
    && m.recordCount == Some(Lines(content)) && EndsLine(content)
  }

  // Evidence the reader accepts: none was streamed, or the file read is exactly the
  // one its complete manifest and the call total describe.
  predicate Accepts(owner: Owner, file: File, hash: Hash) {
    if owner.callLog == None then !owner.hasCounts
    else
      var m := owner.callLog.value;
      && m.complete && !m.failed && ManifestConsistent(m, owner)
      && file.regular && file.statSize <= CALL_LOG_BYTE_LIMIT && |file.content| <= CALL_LOG_BYTE_LIMIT
      && ContentMatches(m, file.content, hash)
  }

  // What reading a file block by block finds out, if it stays within the cap.
  datatype Reading = Reading(size: nat, digested: Bytes, lines: nat, last: Bytes)

  // Blocks of any length the read call may return, up to the size asked for.
  method ReadBlocks(content: Bytes) returns (r: Option<Reading>)
    ensures r == if |content| > CALL_LOG_BYTE_LIMIT then None
                 else Some(Reading(|content|, content, Lines(content), if content == [] then [] else [content[|content| - 1]]))
  {
    var size, lines := 0, 0;
    var digested: Bytes, last: Bytes := [], [];
    while size < |content|
      invariant size == |digested| <= |content| && size <= CALL_LOG_BYTE_LIMIT
      invariant digested == content[..size] && lines == Lines(digested)
      invariant last == if size == 0 then [] else [content[size - 1]]
    {
      var asked := if READ_BLOCK <= CALL_LOG_BYTE_LIMIT + 1 - size then READ_BLOCK else CALL_LOG_BYTE_LIMIT + 1 - size;
      var n: nat :| 1 <= n <= asked && n <= |content| - size;
      var block := content[size..size + n];
      size := size + n;
      LinesConcat(digested, block);
      digested := digested + block;
      lines := lines + Lines(block);
      last := [block[|block| - 1]];
      if size > CALL_LOG_BYTE_LIMIT {
        return None;
      }
    }
    assert content[..|content|] == content;
    r := Some(Reading(size, digested, lines, last));
  }

  method ValidateCallArtifact(owner: Owner, file: File, hash: Hash) returns (v: Verdict)
    ensures v == Accepted <==> Accepts(owner, file, hash)
    ensures v == ManifestMissing <==> owner.callLog == None && owner.hasCounts
    ensures v == Incomplete <==> owner.callLog.Some? && (!owner.callLog.value.complete || owner.callLog.value.failed)
    ensures v == ManifestMismatch ==> owner.callLog.Some? && !ManifestConsistent(owner.callLog.value, owner)
    ensures v == NotBoundedRegular ==> !file.regular || file.statSize > CALL_LOG_BYTE_LIMIT
    ensures v == ExceedsCap ==> file.regular && file.statSize <= CALL_LOG_BYTE_LIMIT < |file.content|
    ensures v == ContentMismatch ==>
      owner.callLog.Some? && |file.content| <= CALL_LOG_BYTE_LIMIT && !ContentMatches(owner.callLog.value, file.content, hash)
  {
    if owner.callLog == None {
      return if owner.hasCounts then ManifestMissing else Accepted;
    }
    var m := owner.callLog.value;
    if !m.complete || m.failed {
      return Incomplete;
    }
    if !ManifestConsistent(m, owner) {
      return ManifestMismatch;
    }
    if !file.regular || file.statSize > CALL_LOG_BYTE_LIMIT {
      return NotBoundedRegular;
    }
    var r := ReadBlocks(file.content);
    if r == None {
      return ExceedsCap;
    }
    var Reading(size, digested, lines, last) := r.value;
    if m.bytes != Some(size) || m.sha256 != Some(hash(digested)) || m.recordCount != Some(lines)
      || (size != 0 && last != [LINE_FEED]) {
      return ContentMismatch;
    }
    v := Accepted;
  }

  // The writer and the reader agree: the file a log leaves behind is accepted exactly
  // when the log was closed as complete, its owner counted as many calls, and the
  // file fits the reader's cap.
  lemma LogIsAcceptedExactly(log: CallEvidenceLog, hash: Hash, total: Option<int>)
    requires log.Valid()
    ensures Accepts(Owner(Some(log.Snapshot(hash)), true, total), File(true, |log.file|, log.file), hash)
      <==> log.complete && total == Some(log.recordCount) && log.bytes <= CALL_LOG_BYTE_LIMIT
  {
    if log.complete {
      RecordsAreLines(log.records);
      assert log.file == Concat(log.records);
    }
  }

  // What the reader accepts is a file of exactly the described bytes: complete and
  // without a failure, with as many records as calls and as line feeds, within the cap
  // both when checked and when read, ending in a line feed, and with the described digest.
  lemma AcceptedMeans(owner: Owner, file: File, hash: Hash)
    requires Accepts(owner, file, hash) && owner.callLog.Some?
    ensures var m := owner.callLog.value;
      && m.complete && !m.failed && m.bytes == Some(|file.content|) && m.sha256 == Some(hash(file.content))
      && owner.hasCounts && owner.total == m.recordCount && m.recordCount == Some(Lines(file.content))
      && file.regular && file.statSize <= CALL_LOG_BYTE_LIMIT && |file.content| <= CALL_LOG_BYTE_LIMIT
      && (file.content != [] ==> file.content[|file.content| - 1] == 10)
  {
    hide Lines;
  }

  // Against the manifest of a log no file is accepted but one with the digest, the length
  // and the lines of the file the log wrote: unless digests collide, that file itself.
  lemma OnlyItsOwnFileAccepted(log: CallEvidenceLog, hash: Hash, total: Option<int>, file: File)
    requires log.Valid() && Accepts(Owner(Some(log.Snapshot(hash)), true, total), file, hash)
    ensures log.complete && total == Some(log.recordCount)
    ensures hash(file.content) == hash(log.file) && |file.content| == |log.file| && Lines(file.content) == log.recordCount
    ensures (forall other :: hash(other) == hash(log.file) ==> other == log.file) ==> file.content == log.file
  {
    AcceptedMeans(Owner(Some(log.Snapshot(hash)), true, total), file, hash);
    hide Accepts, Lines;
  }

  // A failed log holds its whole records and at most a part of one more.
  lemma FailedLogKeepsRecords(log: CallEvidenceLog)
    requires log.Valid()
    ensures log.recordCount <= Lines(log.file) <= log.recordCount + 1
    ensures Concat(log.records) <= log.file
  {
    RecordsAreLines(log.records);
    LinesConcat(Concat(log.records), log.partial);
    if log.partial != [] {
      assert log.partial == log.pending[..|log.partial|];
      PartOfRecord(log.pending, |log.partial|);
    }
  }

  // ------------------------------------------------------------- the stderr drain

  datatype Drained = Drained(kept: Bytes, bytes: nat, totalBytes: nat, truncated: bool)

  // The drain loop, for any way the stream splits into blocks: it keeps the first
  // bytes up to the limit, counts all of them, and says when it dropped any.
  method Drain(stream: Bytes) returns (d: Drained)
    ensures d.kept == stream[..if |stream| <= STDERR_LIMIT then |stream| else STDERR_LIMIT]
    ensures d.bytes == |d.kept| && d.totalBytes == |stream|
    ensures d.truncated <==> d.kept != stream
  {
    var kept: Bytes := [];
    var total := 0;
    var truncated := false;
    while total < |stream|
      invariant total <= |stream|
      invariant kept == stream[..if total <= STDERR_LIMIT then total else STDERR_LIMIT]
      invariant truncated == (total > STDERR_LIMIT)
    {
      var n: nat :| 1 <= n <= STDERR_BLOCK && n <= |stream| - total;
      var block := stream[total..total + n];
      var remaining := if |kept| <= STDERR_LIMIT then STDERR_LIMIT - |kept| else 0;
      kept := kept + block[..if remaining <= n then remaining else n];
      total := total + n;
      truncated := total > STDERR_LIMIT;
    }
    d := Drained(kept, |kept|, total, truncated);
  }
}
