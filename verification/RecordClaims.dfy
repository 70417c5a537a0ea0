// Collecting the claims of install records (scripts/_import_origin_attestations.py):
// each row is split from the right, and every claim about a path is kept by owner.
module RecordClaims {
  import opened Common

  // ------------------------------------------------------------ splitting a row

  datatype Split = Split(before: string, found: bool, after: string)

  // Python's rpartition: around the last separator, or everything after when none.
  function SplitLast(s: string, sep: char): Split {
    if s == "" then Split("", false, "")
    else if s[|s| - 1] == sep then Split(s[..|s| - 1], true, "")
    else
      var r := SplitLast(s[..|s| - 1], sep);
      Split(r.before, r.found, r.after + [s[|s| - 1]])
  }

  // Python's partition: around the first separator, or everything before when none.
  function SplitFirst(s: string, sep: char): Split {
    if s == "" then Split("", false, "")
    else if s[0] == sep then Split("", true, s[1..])
    else
      var r := SplitFirst(s[1..], sep);
      Split([s[0]] + r.before, r.found, r.after)
  }

  // The split found is the one whose tail holds no separator, and it loses nothing.
  lemma {:induction false} SplitLastExactly(before: string, sep: char, after: string)
    requires sep !in after
    ensures SplitLast(before + [sep] + after, sep) == Split(before, true, after)
  {
    var s := before + [sep] + after;
    if after == "" {
      assert s[..|s| - 1] == before;
    } else {
      var init, last := after[..|after| - 1], after[|after| - 1];
      SplitLastExactly(before, sep, init);
      assert s[..|s| - 1] == before + [sep] + init;
      assert after == init + [last];
    }
  }

  lemma {:induction false} SplitLastSound(s: string, sep: char)
    ensures var r := SplitLast(s, sep);
      && sep !in r.after
      && (if r.found then s == r.before + [sep] + r.after else s == r.after && r.before == "")
  {
    if s != "" && s[|s| - 1] != sep {
      SplitLastSound(s[..|s| - 1], sep);
      assert s == s[..|s| - 1] + [s[|s| - 1]];
    }
  }

  lemma {:induction false} SplitFirstExactly(before: string, sep: char, after: string)
    requires sep !in before
    ensures SplitFirst(before + [sep] + after, sep) == Split(before, true, after)
  {
    var s := before + [sep] + after;
    if before == "" {
      assert s[1..] == after;
    } else {
      SplitFirstExactly(before[1..], sep, after);
      assert s[1..] == before[1..] + [sep] + after;
      assert before == [before[0]] + before[1..];
    }
  }

  lemma {:induction false} SplitFirstSound(s: string, sep: char)
    ensures var r := SplitFirst(s, sep);
      && sep !in r.before
      && (if r.found then s == r.before + [sep] + r.after else s == r.before && r.after == "")
  {
    if s != "" && s[0] != sep {
      SplitFirstSound(s[1..], sep);
      assert s == [s[0]] + s[1..];
    }
  }

  function LowerChar(c: char): char { if 'A' <= c <= 'Z' then 'a' + (c - 'A') else c }

  function Lower(s: string): string { seq(|s|, i requires 0 <= i < |s| => LowerChar(s[i])) }

  // Lower-casing changes the 26 letters and nothing else.
  lemma LowerChars(c: char)
    ensures forall i :: 0 <= i < 26 && c == "ABCDEFGHIJKLMNOPQRSTUVWXYZ"[i] ==> LowerChar(c) == "abcdefghijklmnopqrstuvwxyz"[i]
    ensures c !in "ABCDEFGHIJKLMNOPQRSTUVWXYZ" ==> LowerChar(c) == c
  {
    if 'A' <= c <= 'Z' {
      var i := (c - 'A') as int;
      assert "ABCDEFGHIJKLMNOPQRSTUVWXYZ"[i] == c;
    }
  }

  // A quoted name is decoded by the CSV reader; anything else is taken as it stands.
  type Unquote = string -> Option<string>

  predicate Quoted(name: string) { |name| >= 2 && name[0] == '"' && name[|name| - 1] == '"' }

  datatype Row = Row(name: string, algorithm: string, digest: string)

  // The claim of one record line, if it makes one.
  function ParseRow(line: string, unquote: Unquote): Option<Row> {
    var head := SplitLast(line, ',').before;
    var fields := SplitLast(head, ',');
    if !fields.found || fields.before == "" then None
    else
      var name := if Quoted(fields.before) then unquote(fields.before) else Some(fields.before);
      var claim := SplitFirst(fields.after, '=');
      if name == None || claim.before == "" || claim.after == "" || name.value == "" then None
      else Some(Row(name.value, Lower(claim.before), claim.after))
  }

  function WriteRow(name: string, algorithm: string, digest: string, size: string): string {
    name + [','] + (algorithm + ['='] + digest) + [','] + size
  }

  // A written row reads back whatever commas its name and padding its digest hold.
  lemma RowRoundTrip(name: string, algorithm: string, digest: string, size: string, unquote: Unquote)
    requires name != "" && !Quoted(name) && algorithm != "" && digest != ""
    requires ',' !in algorithm && '=' !in algorithm && ',' !in digest && ',' !in size
    ensures ParseRow(WriteRow(name, algorithm, digest, size), unquote) == Some(Row(name, Lower(algorithm), digest))
  {
    var claim := algorithm + ['='] + digest;
    assert ',' !in claim;
    SplitLastExactly(name + [','] + claim, ',', size);
    SplitLastExactly(name, ',', claim);
    SplitFirstExactly(algorithm, '=', digest);
    hide Lower, SplitLast, SplitFirst, Quoted;
  }

  // Every row that makes a claim is the text of that claim.
  lemma ParsedRowIsText(line: string, unquote: Unquote) returns (algorithm: string, size: string, name: string)
    requires ParseRow(line, unquote).Some?
    ensures var r := ParseRow(line, unquote).value;
      && line == WriteRow(name, algorithm, r.digest, size)
      && r.algorithm == Lower(algorithm) && ',' !in size && '=' !in algorithm
      && Some(r.name) == if Quoted(name) then unquote(name) else Some(name)
  {
    hide Lower, SplitLast, SplitFirst, Quoted;
    SplitLastSound(line, ',');
    var head := SplitLast(line, ',').before;
    SplitLastSound(head, ',');
    var fields := SplitLast(head, ',');
    SplitFirstSound(fields.after, '=');
    var claim := SplitFirst(fields.after, '=');
    algorithm, size, name := claim.before, SplitLast(line, ',').after, fields.before;
  }

  // --------------------------------------------------------------- the claims

  // One installed record: the owner and its lines, unless it could not be read.
  datatype Record = Record(owner: string, lines: Option<seq<string>>)

  // Where a recorded name resolves to, if it does.
  type Resolve = string -> Option<string>

  type Claims = map<string, map<string, set<(string, string)>>>

  predicate Makes(line: string, path: string, claim: (string, string), resolve: Resolve, unquote: Unquote) {
    match ParseRow(line, unquote)
    case None => false
    case Some(row) => resolve(row.name) == Some(path) && claim == (row.algorithm, row.digest)
  }

  predicate Holds(claims: Claims, path: string, owner: string, claim: (string, string)) {
    path in claims && owner in claims[path] && claim in claims[path][owner]
  }

  function Added(claims: Claims, path: string, owner: string, claim: (string, string)): Claims {
    var owners := if path in claims then claims[path] else map[];
    var made := if owner in owners then owners[owner] else {};
    claims[path := owners[owner := made + {claim}]]
  }

  lemma AddedHolds(claims: Claims, path: string, owner: string, claim: (string, string))
    ensures forall p, o, c :: Holds(Added(claims, path, owner, claim), p, o, c) <==>
      Holds(claims, p, o, c) || (p == path && o == owner && c == claim)
  {
  }

  predicate MadeByLines(
      lines: seq<string>, path: string, claim: (string, string), resolve: Resolve, unquote: Unquote)
  {
    exists k :: 0 <= k < |lines| && Makes(lines[k], path, claim, resolve, unquote)
  }

  predicate MadeBy(
      records: seq<Record>, path: string, owner: string, claim: (string, string), resolve: Resolve, unquote: Unquote)
  {
    exists i :: 0 <= i < |records| && records[i].owner == owner && records[i].lines.Some?
      && MadeByLines(records[i].lines.value, path, claim, resolve, unquote)
  }

  // All claims of one record's lines, added to those already collected.
  method CollectLines(known: Claims, owner: string, lines: seq<string>, resolve: Resolve, unquote: Unquote)
    returns (claims: Claims)
    ensures forall p, o, c :: Holds(claims, p, o, c) <==>
      Holds(known, p, o, c) || (o == owner && MadeByLines(lines, p, c, resolve, unquote))
  {
    hide ParseRow, Holds, Added;
    claims := known;
    for k := 0 to |lines|
      invariant forall p, o, c :: Holds(claims, p, o, c) <==>
        Holds(known, p, o, c) || (o == owner && MadeByLines(lines[..k], p, c, resolve, unquote))
    {
      LinesGrow(lines, k, resolve, unquote);
      var row := ParseRow(lines[k], unquote);
      if row.Some? {
        var path := resolve(row.value.name);
        if path.Some? {
          AddedHolds(claims, path.value, owner, (row.value.algorithm, row.value.digest));
          claims := Added(claims, path.value, owner, (row.value.algorithm, row.value.digest));
        }
      }
    }
    assert lines[..|lines|] == lines;
  }

  lemma LinesGrow(lines: seq<string>, k: nat, resolve: Resolve, unquote: Unquote)
    requires k < |lines|
    ensures forall p, c :: MadeByLines(lines[..k + 1], p, c, resolve, unquote) <==>
      MadeByLines(lines[..k], p, c, resolve, unquote) || Makes(lines[k], p, c, resolve, unquote)
  {
    hide Makes;
    forall p, c
      ensures MadeByLines(lines[..k + 1], p, c, resolve, unquote) <==>
        MadeByLines(lines[..k], p, c, resolve, unquote) || Makes(lines[k], p, c, resolve, unquote)
    {
      assert lines[..k + 1][k] == lines[k];
      if j :| 0 <= j < k && Makes(lines[j], p, c, resolve, unquote) {
        assert lines[..k + 1][j] == lines[j] && lines[..k][j] == lines[j];
      }
    }
  }

  // Every claim every readable record makes is kept under its path and its owner,
  // and nothing else is: disagreeing claims stand side by side.
  method RecordAttestations(records: seq<Record>, resolve: Resolve, unquote: Unquote) returns (claims: Claims)
    ensures forall p, o, c :: Holds(claims, p, o, c) <==> MadeBy(records, p, o, c, resolve, unquote)
  {
    hide MadeByLines, Holds;
    claims := map[];
    NoneHeld();
    for i := 0 to |records|
      invariant forall p, o, c :: Holds(claims, p, o, c) <==> MadeBy(records[..i], p, o, c, resolve, unquote)
    {
      RecordsGrow(records, i, resolve, unquote);
      if records[i].lines.Some? {
        claims := CollectLines(claims, records[i].owner, records[i].lines.value, resolve, unquote);
      }
    }
    assert records[..|records|] == records;
  }

  lemma NoneHeld()
    ensures forall p, o, c :: !Holds(map[], p, o, c)
  {
  }

  lemma RecordsGrow(records: seq<Record>, i: nat, resolve: Resolve, unquote: Unquote)
    requires i < |records|
    ensures forall p, o, c :: MadeBy(records[..i + 1], p, o, c, resolve, unquote) <==>
      MadeBy(records[..i], p, o, c, resolve, unquote)
        || (records[i].owner == o && records[i].lines.Some? && MadeByLines(records[i].lines.value, p, c, resolve, unquote))
  {
    hide MadeByLines;
    forall p, o, c
      ensures MadeBy(records[..i + 1], p, o, c, resolve, unquote) <==>
        MadeBy(records[..i], p, o, c, resolve, unquote)
          || (records[i].owner == o && records[i].lines.Some? && MadeByLines(records[i].lines.value, p, c, resolve, unquote))
    {
      var before, after := records[..i], records[..i + 1];
      assert after[i] == records[i];
      assert forall j :: 0 <= j < i ==> after[j] == before[j];
      if MadeBy(before, p, o, c, resolve, unquote) {
        var j :| 0 <= j < i && before[j].owner == o && before[j].lines.Some?
          && MadeByLines(before[j].lines.value, p, c, resolve, unquote);
        assert after[j] == before[j];
      }
    }
  }
}
