// The length a recorded digest claims, computed from its text alone
// (scripts/_import_origin_attestations.py), against URL-safe base64 as section 5 of
// RFC 4648 defines it.
module DigestLength {
  import opened Common

  const MAX_RECORDED: nat := 1024

  // ------------------------------------------------------- URL-safe base64

  type Sextet = v: int | 0 <= v < 64

  function CharOf(v: Sextet): char {
    if v < 26 then 'A' + v as char
    else if v < 52 then 'a' + (v - 26) as char
    else if v < 62 then '0' + (v - 52) as char
    else if v == 62 then '-' else '_'
  }

  predicate InAlphabet(c: char) {
    'A' <= c <= 'Z' || 'a' <= c <= 'z' || '0' <= c <= '9' || c == '-' || c == '_'
  }

  function ValueOf(c: char): Sextet
    requires InAlphabet(c)
  {
    if 'A' <= c <= 'Z' then (c - 'A') as int
    else if 'a' <= c <= 'z' then (c - 'a') as int + 26
    else if '0' <= c <= '9' then (c - '0') as int + 52
    else if c == '-' then 62 else 63
  }

  lemma CharRoundTrip(v: Sextet)
    ensures InAlphabet(CharOf(v)) && ValueOf(CharOf(v)) == v
  {
  }

  // Four characters for three bytes.
  function Quad(a: Byte, b: Byte, c: Byte): string {
    [CharOf(a / 4), CharOf(a % 4 * 16 + b / 16), CharOf(b % 16 * 4 + c / 64), CharOf(c % 64)]
  }

  // The text of a byte string without padding; one or two bytes left over take two
  // or three characters.
  function Encode(s: Bytes): string {
    if s == [] then ""
    else if |s| == 1 then Quad(s[0], 0, 0)[..2]
    else if |s| == 2 then Quad(s[0], s[1], 0)[..3]
    else Quad(s[0], s[1], s[2]) + Encode(s[3..])
  }

  // Characters of the alphabet in a number that can encode whole bytes.
  predicate Body(text: string) {
    (forall c :: c in text ==> InAlphabet(c)) && |text| % 4 != 1
  }

  // Padding brings the text to a multiple of four characters.
  function Pad(text: string): string {
    if |text| % 4 == 2 then text + "==" else if |text| % 4 == 3 then text + "=" else text
  }

  function Triple(a: Sextet, b: Sextet, c: Sextet, d: Sextet): Bytes {
    [a * 4 + b / 16, b % 16 * 16 + c / 4, c % 4 * 64 + d]
  }

  // The bytes a text stands for; bits beyond the last whole byte are ignored.
  function Decode(text: string): Bytes
    requires Body(text)
  {
    if |text| < 2 then []
    else if |text| == 2 then Triple(ValueOf(text[0]), ValueOf(text[1]), 0, 0)[..1]
    else if |text| == 3 then Triple(ValueOf(text[0]), ValueOf(text[1]), ValueOf(text[2]), 0)[..2]
    else
      assert forall c :: c in text[4..] ==> c in text;
      Triple(ValueOf(text[0]), ValueOf(text[1]), ValueOf(text[2]), ValueOf(text[3])) + Decode(text[4..])
  }

  lemma QuadInAlphabet(a: Byte, b: Byte, c: Byte)
    ensures |Quad(a, b, c)| == 4
    ensures forall x :: x in Quad(a, b, c) ==> InAlphabet(x)
  {
    CharRoundTrip(a / 4);
    CharRoundTrip(a % 4 * 16 + b / 16);
    CharRoundTrip(b % 16 * 4 + c / 64);
    CharRoundTrip(c % 64);
    hide CharOf, InAlphabet;
  }

  lemma RegroupedBits(a: Byte, b: Byte, c: Byte)
    ensures Triple(a / 4, a % 4 * 16 + b / 16, b % 16 * 4 + c / 64, c % 64) == [a, b, c]
  {
  }

  lemma QuadRoundTrip(a: Byte, b: Byte, c: Byte)
    requires forall x :: x in Quad(a, b, c) ==> InAlphabet(x)
    ensures var q := Quad(a, b, c); Triple(ValueOf(q[0]), ValueOf(q[1]), ValueOf(q[2]), ValueOf(q[3])) == [a, b, c]
  {
    hide CharOf, InAlphabet, ValueOf, Triple;
    CharRoundTrip(a / 4);
    CharRoundTrip(a % 4 * 16 + b / 16);
    CharRoundTrip(b % 16 * 4 + c / 64);
    CharRoundTrip(c % 64);
    RegroupedBits(a, b, c);
  }

  function EncodedLength(n: nat): nat { 4 * (n / 3) + if n % 3 == 0 then 0 else n % 3 + 1 }

  lemma LengthFacts(n: nat)
    ensures EncodedLength(n) % 4 != 1
    ensures n >= 3 ==> EncodedLength(n) == 4 + EncodedLength(n - 3)
  {
    if n >= 3 { assert (n - 3) / 3 == n / 3 - 1 && (n - 3) % 3 == n % 3; }
  }

  lemma {:induction false} EncodedShape(s: Bytes)
    ensures Body(Encode(s)) && |Encode(s)| == EncodedLength(|s|)
  {
    LengthFacts(|s|);
    assert EncodedLength(0) == 0 && EncodedLength(1) == 2 && EncodedLength(2) == 3;
    hide Quad, InAlphabet, EncodedLength;
    if |s| == 1 {
      QuadInAlphabet(s[0], 0, 0);
    } else if |s| == 2 {
      QuadInAlphabet(s[0], s[1], 0);
    } else if |s| >= 3 {
      QuadInAlphabet(s[0], s[1], s[2]);
      EncodedShape(s[3..]);
    }
  }

  // Decoding gives every encoded byte string back.
  lemma {:induction false} EncodeRoundTrip(s: Bytes)
    ensures Body(Encode(s)) && Decode(Encode(s)) == s
  {
    EncodedShape(s);
    hide Quad, Triple, InAlphabet, ValueOf;
    if |s| == 1 {
      ShortRoundTrip(s[0], 0, 1);
    } else if |s| == 2 {
      ShortRoundTrip(s[0], s[1], 2);
    } else if |s| >= 3 {
      QuadInAlphabet(s[0], s[1], s[2]);
      QuadRoundTrip(s[0], s[1], s[2]);
      EncodeRoundTrip(s[3..]);
      EncodedShape(s[3..]);
      assert Encode(s)[4..] == Encode(s[3..]);
      assert s == [s[0], s[1], s[2]] + s[3..];
    }
  }

  lemma ShortRoundTrip(a: Byte, b: Byte, n: nat)
    requires (n == 1 && b == 0) || n == 2
    ensures var s := [a, b][..n]; Body(Encode(s)) && Decode(Encode(s)) == s
  {
    var s := [a, b][..n];
    EncodedShape(s);
    QuadInAlphabet(a, b, 0);
    QuadRoundTrip(a, b, 0);
    hide ValueOf, InAlphabet, CharOf;
  }

  lemma {:induction false} DecodedLength(text: string)
    requires Body(text)
    ensures |Decode(text)| == |text| * 3 / 4
  {
    hide InAlphabet, ValueOf;
    if |text| >= 4 {
      assert forall c :: c in text[4..] ==> c in text;
      DecodedLength(text[4..]);
    }
  }

  // -------------------------------------------------- the length from the text

  // Python's rstrip("=").
  function Stripped(text: string): (body: string)
    ensures |body| <= |text| && body == text[..|body|]
    ensures forall i :: |body| <= i < |text| ==> text[i] == '='
    ensures body != "" ==> body[|body| - 1] != '='
  {
    if text == "" || text[|text| - 1] != '=' then text else Stripped(text[..|text| - 1])
  }

  function DecodedDigestLength(digest: string): Option<nat> {
    if digest == "" || |digest| > MAX_RECORDED then None
    else
      var stripped := Stripped(digest);
      if stripped == "" || exists c :: c in stripped && !InAlphabet(c) then None
      else if |stripped| % 4 == 1 then None
      else if |digest| != |stripped| && (|digest| % 4 != 0 || |digest| - |stripped| > 2) then None
      else
        var decoded := |stripped| * 3 / 4;
        if decoded != 0 then Some(decoded) else None
  }

  lemma NoPaddingInBody(c: char)
    ensures InAlphabet(c) ==> c != '='
  {
  }

  lemma StrippedIsBody(text: string, body: string)
    requires body != "" && body[|body| - 1] != '='
    requires |body| <= |text| && text[..|body|] == body && forall i :: |body| <= i < |text| ==> text[i] == '='
    ensures Stripped(text) == body
  {
    var s := Stripped(text);
    assert body[|body| - 1] == text[|body| - 1];
    assert s != "" ==> s[|s| - 1] == text[|s| - 1];
    hide Stripped;
  }

  // The text carries the body, bare or correctly padded.
  predicate Carries(digest: string, body: string) {
    body != "" && Body(body) && (digest == body || digest == Pad(body))
  }

  lemma LengthOfCarried(digest: string, body: string)
    requires Carries(digest, body) && |digest| <= MAX_RECORDED
    ensures DecodedDigestLength(digest) == Some(|Decode(body)|)
  {
    NoPaddingInBody(body[|body| - 1]);
    PaddingAdded(body);
    hide InAlphabet, Stripped, Decode, Pad;
    StrippedIsBody(digest, body);
    DecodedLength(body);
  }

  lemma PaddingAdded(body: string)
    requires |body| % 4 != 1
    ensures |Pad(body)| % 4 == 0 && |body| <= |Pad(body)| <= |body| + 2 && Pad(body)[..|body|] == body
    ensures forall i :: |body| <= i < |Pad(body)| ==> Pad(body)[i] == '='
  {
  }

  lemma LengthMeansCarried(digest: string) returns (body: string)
    requires DecodedDigestLength(digest).Some?
    ensures |digest| <= MAX_RECORDED && Carries(digest, body)
  {
    hide InAlphabet, Decode, Pad;
    body := Stripped(digest);
    PaddedIsPad(digest, body);
  }

  // The computed length is that of the decoded bytes, and it is computed exactly for
  // the texts that are a bare or a correctly padded body of at most 1024 characters.
  lemma LengthExactly(digest: string, n: nat)
    ensures DecodedDigestLength(digest) == Some(n) <==>
      |digest| <= MAX_RECORDED && exists body :: Carries(digest, body) && Body(body) && n == |Decode(body)|
  {
    hide DecodedDigestLength, Decode, InAlphabet, Pad;
    if DecodedDigestLength(digest) == Some(n) {
      var body := LengthMeansCarried(digest);
      LengthOfCarried(digest, body);
    }
    if |digest| <= MAX_RECORDED {
      forall body | Carries(digest, body) ensures DecodedDigestLength(digest) == Some(|Decode(body)|) {
        LengthOfCarried(digest, body);
      }
    }
  }

  lemma PaddedIsPad(digest: string, body: string)
    requires body == Stripped(digest) && |body| % 4 != 1 && body != ""
    requires |digest| != |body| ==> |digest| % 4 == 0 && |digest| - |body| <= 2
    ensures digest == body || digest == Pad(body)
  {
    hide Stripped;
    var rest := digest[|body|..];
    assert digest == body + rest;
    assert forall i :: 0 <= i < |rest| ==> rest[i] == '=';
    PadCount(|body|, |rest|);
    if |rest| == 1 {
      assert rest == "=";
    } else if |rest| == 2 {
      assert rest == "==";
    } else {
      assert rest == [];
    }
  }

  lemma PadCount(body: nat, pad: nat)
    requires body % 4 != 1 && pad <= 2 && (pad != 0 ==> (body + pad) % 4 == 0)
    ensures pad == 1 ==> body % 4 == 3
    ensures pad == 2 ==> body % 4 == 2
  {
  }

  // The text of any non-empty byte string, padded or not, yields its length while it
  // stays within the bound.
  lemma EncodedLengthRead(s: Bytes, digest: string)
    requires s != [] && (digest == Encode(s) || digest == Pad(Encode(s)))
    ensures DecodedDigestLength(digest) == if |digest| <= MAX_RECORDED then Some(|s|) else None
  {
    hide InAlphabet;
    EncodeRoundTrip(s);
    EncodedShape(s);
    assert Encode(s) != "";
    if |digest| <= MAX_RECORDED {
      LengthOfCarried(digest, Encode(s));
    }
  }

  // ------------------------------------------------------ checking a recorded file

  // An extendable-output hash of the file, asked for a number of bytes.
  type Shake = nat -> Bytes

  // The digest recomputed for a claim, at the length the claim itself states.
  function Recomputed(shake: Shake, recorded: string): Option<string> {
    match DecodedDigestLength(recorded)
    case None => None
    case Some(n) => Some(Encode(shake(n)))
  }

  // A recorded extendable-output digest is honoured exactly when it is the unpadded
  // text, within the bound, of some non-zero length of the file's own output.
  lemma HonouredExactly(shake: Shake, recorded: string)
    requires forall n :: |shake(n)| == n
    ensures Recomputed(shake, recorded) == Some(recorded) <==>
      |recorded| <= MAX_RECORDED && exists n: nat :: n > 0 && recorded == Encode(shake(n))
  {
    hide Encode, DecodedDigestLength;
    if Recomputed(shake, recorded) == Some(recorded) {
      BodyHasBytes(recorded, DecodedDigestLength(recorded).value);
    }
    if |recorded| <= MAX_RECORDED {
      forall n: nat | n > 0 && recorded == Encode(shake(n)) ensures Recomputed(shake, recorded) == Some(recorded) {
        EncodedLengthRead(shake(n), recorded);
      }
    }
  }

  lemma BodyHasBytes(digest: string, n: nat)
    requires DecodedDigestLength(digest) == Some(n)
    ensures n > 0 && |digest| <= MAX_RECORDED
  {
  }

  // A padded claim passes the length check and is still never honoured: the
  // recomputed text carries no padding.
  lemma PaddedClaimNeverHonoured(shake: Shake, s: Bytes)
    requires |s| % 3 != 0
    ensures |Pad(Encode(s))| <= MAX_RECORDED ==> DecodedDigestLength(Pad(Encode(s))) == Some(|s|)
    ensures Recomputed(shake, Pad(Encode(s))) != Some(Pad(Encode(s)))
  {
    EncodedLengthRead(s, Pad(Encode(s)));
    hide Encode, DecodedDigestLength, InAlphabet, EncodedLength, Pad;
    var body, recorded := Encode(s), Pad(Encode(s));
    EncodedShape(s);
    assert |body| % 4 != 0 by { LengthNotWhole(|s|); }
    PaddingAdded(body);
    assert recorded[|recorded| - 1] == '=';
    match DecodedDigestLength(recorded) {
      case None =>
      case Some(n) => EncodedTextIsUnpadded(shake(n), recorded);
    }
  }

  lemma LengthNotWhole(n: nat)
    requires n % 3 != 0
    ensures EncodedLength(n) % 4 != 0
  {
  }

  lemma EncodedTextIsUnpadded(s: Bytes, text: string)
    requires text != "" && text[|text| - 1] == '='
    ensures Encode(s) != text
  {
    EncodedShape(s);
    NoPaddingInBody('=');
    hide Encode, InAlphabet;
    assert Encode(s) == text ==> '=' in Encode(s);
  }

  // The examples of section 10 of RFC 4648 for one, two and three bytes, unpadded, and
  // the two characters of the URL-safe alphabet of its section 5.
  lemma KnownShortTexts()
    ensures Encode([102]) == "Zg"
    ensures Encode([102, 111]) == "Zm8"
  {
  }

  lemma KnownText()
    ensures Encode([102, 111, 111]) == "Zm9v"
  {
  }

  lemma UrlSafeText()
    ensures Encode([0xfb, 0xff, 0xfe]) == "-__-"
  {
  }
}
