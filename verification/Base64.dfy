/** Unpadded base64url (section 5 of RFC 4648), written as the service writes it and read by the
    lenient decoder of Python's `binascii`. */
module Base64 {
  import opened Wrappers
  import opened Bytes

  function Char64(n: nat): char
    requires n < 64
  {
    if n < 26 then 'A' + n as char
    else if n < 52 then 'a' + (n - 26) as char
    else if n < 62 then '0' + (n - 52) as char
    else if n == 62 then '-'
    else '_'
  }

  /** The reader takes both alphabets. */
  function Value64(c: char): (v: Option<nat>)
    ensures v.Some? ==> v.value < 64
  {
    if 'A' <= c <= 'Z' then Some((c - 'A') as nat)
    else if 'a' <= c <= 'z' then Some((c - 'a') as nat + 26)
    else if '0' <= c <= '9' then Some((c - '0') as nat + 52)
    else if c == '-' || c == '+' then Some(62)
    else if c == '_' || c == '/' then Some(63)
    else None
  }

  lemma Char64RoundTrip(n: nat)
    requires n < 64
    ensures Value64(Char64(n)) == Some(n) && Char64(n) != '=' && Char64(n) as int < 128 && Char64(n) != '.'
  {
  }

  // ---------------------------------------------------------------------
  // Writing
  // ---------------------------------------------------------------------

  type Sextet = n: nat | n < 64

  /** Three bytes make four sextets. */
  function Group(x: Byte, y: Byte, z: Byte): (six: seq<Sextet>)
    ensures |six| == 4
  {
    [x / 4, x % 4 * 16 + y / 16, y % 16 * 4 + z / 64, z % 64]
  }

  /** One or two bytes at the end make two or three, the last filled up with zeros. */
  function Tail(b: Blob): (six: seq<Sextet>)
    requires |b| < 3
    ensures |six| == (4 * |b| + 2) / 3
  {
    if |b| == 0 then []
    else if |b| == 1 then [b[0] / 4, b[0] % 4 * 16]
    else [b[0] / 4, b[0] % 4 * 16 + b[1] / 16, b[1] % 16 * 4]
  }

  function Sextets(b: Blob): (six: seq<Sextet>)
    ensures |six| == (4 * |b| + 2) / 3
  {
    if |b| < 3 then Tail(b) else Group(b[0], b[1], b[2]) + Sextets(b[3..])
  }

  function Chars(six: seq<Sextet>): (s: string)
    ensures |s| == |six|
    ensures IsAscii(s) && '=' !in s && '.' !in s
  {
    var s := seq(|six|, i requires 0 <= i < |six| => Char64(six[i]));
    assert forall i :: 0 <= i < |s| ==> s[i] == Char64(six[i]) && s[i] as int < 128 && s[i] != '=' && s[i] != '.';
    s
  }

  function Padding(k: nat): (s: string)
    ensures |s| == k
  {
    seq(k, _ => '=')
  }

  /** `base64.urlsafe_b64encode` */
  function Encode64(b: Blob): string {
    Chars(Sextets(b)) + Padding((3 - |b| % 3) % 3)
  }

  /** `s.rstrip("=")` */
  function StripPadding(s: string): string {
    if s != "" && s[|s| - 1] == '=' then StripPadding(s[..|s| - 1]) else s
  }

  function Unpadded(b: Blob): string {
    StripPadding(Encode64(b))
  }

  /** `"=" * (-len(s) % 4)` characters more. */
  function Repadded(s: string): string {
    s + Padding((4 - |s| % 4) % 4)
  }

  // ---------------------------------------------------------------------
  // Reading
  // ---------------------------------------------------------------------

  datatype ScanState =
    | Scanning(quad: nat, left: nat, pads: nat, out: Blob)
    | Finished(out: Blob)

  /** The bits left over from the characters of an unfinished group. */
  predicate LeftOverFits(s: ScanState) {
    s.Scanning? ==>
      && s.quad < 4
      && s.left < (match s.quad case 0 => 1 case 1 => 64 case 2 => 16 case _ => 4)
  }

  type Scan = s: ScanState | LeftOverFits(s) witness Finished([])

  const START: Scan := Scanning(0, 0, 0, [])

  /** One character: padding counts only in the second half of a group and ends the text when it
      completes the group; a character outside the alphabet is skipped. */
  function Feed(s: Scan, c: char): Scan {
    if s.Finished? then s
    else if c == '=' then
      if s.quad < 2 then s
      else if s.quad + s.pads + 1 >= 4 then Finished(s.out)
      else Scanning(s.quad, s.left, s.pads + 1, s.out)
    else
      match Value64(c)
      case None => s
      case Some(v) => FeedSextet(s, v)
  }

  function FeedSextet(s: Scan, v: Sextet): Scan {
    if s.Finished? then s
    else
      match s.quad
      case 0 => Scanning(1, v, 0, s.out)
      case 1 => Scanning(2, v % 16, 0, s.out + [s.left * 4 + v / 16])
      case 2 => Scanning(3, v % 4, 0, s.out + [s.left * 16 + v / 4])
      case _ => Scanning(0, 0, 0, s.out + [s.left * 64 + v])
  }

  function ScanAll(s: Scan, text: string): Scan
    decreases |text|
  {
    if text == "" then s else ScanAll(Feed(s, text[0]), text[1..])
  }

  predicate IsAscii(text: string) {
    forall i :: 0 <= i < |text| ==> text[i] as int < 128
  }

  /** `base64.urlsafe_b64decode`; `None` is an exception. */
  function Decode64(text: string): Option<Blob> {
    if !IsAscii(text) then None
    else
      match ScanAll(START, text)
      case Finished(out) => Some(out)
      case Scanning(quad, _, _, out) => if quad == 0 then Some(out) else None
  }

  function DecodeUnpadded(text: string): Option<Blob> {
    Decode64(Repadded(text))
  }

  // ---------------------------------------------------------------------
  // Reading what was written
  // ---------------------------------------------------------------------

  function FeedAll(s: Scan, six: seq<Sextet>): Scan
    decreases |six|
  {
    if six == [] then s else FeedAll(FeedSextet(s, six[0]), six[1..])
  }

  lemma {:induction false} ScanChars(s: Scan, six: seq<Sextet>, rest: string)
    ensures ScanAll(s, Chars(six) + rest) == ScanAll(FeedAll(s, six), rest)
    decreases |six|
  {
    var text := Chars(six) + rest;
    if six == [] {
      assert text == rest;
    } else {
      Char64RoundTrip(six[0]);
      assert text[0] == Char64(six[0]);
      assert text[1..] == Chars(six[1..]) + rest;
      ScanChars(FeedSextet(s, six[0]), six[1..], rest);
    }
  }

  lemma FeedFour(s: Scan, six: seq<Sextet>, rest: seq<Sextet>)
    requires |six| == 4
    ensures FeedAll(s, six + rest) == FeedAll(FeedSextet(FeedSextet(FeedSextet(FeedSextet(s, six[0]), six[1]), six[2]), six[3]), rest)
  {
    var s1 := FeedSextet(s, six[0]);
    var s2 := FeedSextet(s1, six[1]);
    var s3 := FeedSextet(s2, six[2]);
    assert (six + rest)[1..] == six[1..] + rest;
    assert (six[1..] + rest)[1..] == six[2..] + rest;
    assert (six[2..] + rest)[1..] == six[3..] + rest;
    assert (six[3..] + rest)[1..] == rest;
    assert FeedAll(s, six + rest) == FeedAll(s1, six[1..] + rest);
    assert FeedAll(s1, six[1..] + rest) == FeedAll(s2, six[2..] + rest);
    assert FeedAll(s2, six[2..] + rest) == FeedAll(s3, six[3..] + rest);
  }

  // How each byte of a group comes out; `t` are the bits of the next byte.

  lemma FirstByte(out: Blob, x: Byte, t: nat)
    requires t < 16
    ensures FeedSextet(FeedSextet(Scanning(0, 0, 0, out), x / 4), x % 4 * 16 + t) == Scanning(2, t, 0, out + [x])
  {
    assert (x % 4 * 16 + t) / 16 == x % 4 && (x % 4 * 16 + t) % 16 == t;
  }

  lemma SecondByte(out: Blob, y: Byte, t: nat)
    requires t < 4
    ensures FeedSextet(Scanning(2, y / 16, 0, out), y % 16 * 4 + t) == Scanning(3, t, 0, out + [y])
  {
    assert (y % 16 * 4 + t) / 4 == y % 16 && (y % 16 * 4 + t) % 4 == t;
  }

  lemma ThirdByte(out: Blob, z: Byte)
    ensures FeedSextet(Scanning(3, z / 64, 0, out), z % 64) == Scanning(0, 0, 0, out + [z])
  {
  }

  lemma FeedThree(out: Blob, x: Byte, y: Byte, z: Byte, rest: seq<Sextet>)
    ensures FeedAll(Scanning(0, 0, 0, out), Group(x, y, z) + rest) == FeedAll(Scanning(0, 0, 0, out + [x, y, z]), rest)
  {
    var six := Group(x, y, z);
    FeedFour(Scanning(0, 0, 0, out), six, rest);
    FirstByte(out, x, y / 16);
    var s2 := FeedSextet(FeedSextet(Scanning(0, 0, 0, out), six[0]), six[1]);
    assert s2 == Scanning(2, y / 16, 0, out + [x]);
    SecondByte(out + [x], y, z / 64);
    var s3 := FeedSextet(s2, six[2]);
    assert s3 == Scanning(3, z / 64, 0, out + [x] + [y]);
    ThirdByte(out + [x] + [y], z);
    assert out + [x] + [y] + [z] == out + [x, y, z];
  }

  lemma FeedTwo(s: Scan, a: Sextet, b: Sextet)
    ensures FeedAll(s, [a, b]) == FeedSextet(FeedSextet(s, a), b)
  {
    assert [a, b][1..] == [b] && [b][1..] == [];
    assert FeedAll(FeedSextet(s, a), [b]) == FeedSextet(FeedSextet(s, a), b);
  }

  lemma LastByte(out: Blob, x: Byte)
    ensures FeedAll(Scanning(0, 0, 0, out), [x / 4, x % 4 * 16]) == Scanning(2, 0, 0, out + [x])
  {
    FeedTwo(Scanning(0, 0, 0, out), x / 4, x % 4 * 16);
    FirstByte(out, x, 0);
  }

  lemma LastTwoBytes(out: Blob, x: Byte, y: Byte)
    ensures FeedAll(Scanning(0, 0, 0, out), [x / 4, x % 4 * 16 + y / 16, y % 16 * 4]) == Scanning(3, 0, 0, out + [x, y])
  {
    var six: seq<Sextet> := [x / 4, x % 4 * 16 + y / 16, y % 16 * 4];
    var first: Scan := FeedSextet(Scanning(0, 0, 0, out), six[0]);
    assert six[1..] == [six[1], six[2]];
    FeedTwo(first, six[1], six[2]);
    FirstByte(out, x, y / 16);
    SecondByte(out + [x], y, 0);
    assert out + [x] + [y] == out + [x, y];
  }

  lemma FeedTail(out: Blob, b: Blob)
    requires |b| < 3
    ensures FeedAll(Scanning(0, 0, 0, out), Tail(b)) == Scanning(if |b| == 0 then 0 else |b| + 1, 0, 0, out + b)
  {
    if |b| == 0 {
      assert out + b == out;
    } else if |b| == 1 {
      LastByte(out, b[0]);
      assert b == [b[0]];
    } else {
      LastTwoBytes(out, b[0], b[1]);
      assert b == [b[0], b[1]];
    }
  }

  /** Where the scan stands after the sextets of a byte string: all its bytes are out, and a group is
      open exactly when a byte or two are left over. */
  lemma {:induction false} FeedSextets(out: Blob, b: Blob)
    ensures FeedAll(Scanning(0, 0, 0, out), Sextets(b)) == Scanning(if |b| % 3 == 0 then 0 else |b| % 3 + 1, 0, 0, out + b)
    decreases |b|
  {
    if |b| < 3 {
      FeedTail(out, b);
    } else {
      FeedThree(out, b[0], b[1], b[2], Sextets(b[3..]));
      FeedSextets(out + [b[0], b[1], b[2]], b[3..]);
      assert out + [b[0], b[1], b[2]] + b[3..] == out + b;
    }
  }

  /** The decoder takes the encoded text of any byte string back to it. */
  lemma DecodeEncode(b: Blob)
    ensures Decode64(Encode64(b)) == Some(b)
  {
    FeedSextets([], b);
    assert [] + b == b;
    var k := (3 - |b| % 3) % 3;
    ScanChars(START, Sextets(b), Padding(k));
    var s := FeedAll(START, Sextets(b));
    if k == 1 {
      assert Padding(1)[1..] == "";
    } else if k == 2 {
      assert Padding(2)[1..] == Padding(1) && Padding(1)[1..] == "";
    }
  }

  lemma {:induction false} StripAppended(body: string, k: nat)
    requires '=' !in body
    ensures StripPadding(body + Padding(k)) == body
  {
    var s := body + Padding(k);
    if k == 0 {
      assert s == body;
    } else {
      assert s[..|s| - 1] == body + Padding(k - 1);
      StripAppended(body, k - 1);
    }
  }

  lemma PaddingCount(n: nat)
    ensures (4 - (4 * n + 2) / 3 % 4) % 4 == (3 - n % 3) % 3
  {
    var q := n / 3;
    assert n == 3 * q + n % 3;
    assert (4 * n + 2) / 3 == 4 * q + (4 * (n % 3) + 2) / 3;
  }

  lemma UnpaddedIsChars(b: Blob)
    ensures Unpadded(b) == Chars(Sextets(b))
  {
    StripAppended(Chars(Sextets(b)), (3 - |b| % 3) % 3);
  }

  /** Taking the padding off loses nothing, for byte strings of every length. */
  lemma RepaddingRestores(b: Blob)
    ensures Repadded(Unpadded(b)) == Encode64(b)
  {
    UnpaddedIsChars(b);
    PaddingCount(|b|);
  }

  /** Unpadded text decodes to the bytes it was made from. */
  lemma UnpaddedRoundTrip(b: Blob)
    ensures DecodeUnpadded(Unpadded(b)) == Some(b)
  {
    RepaddingRestores(b);
    DecodeEncode(b);
  }

  /** Were the padding not put back, exactly the byte strings that fill whole groups would decode. */
  lemma PaddingNeeded(b: Blob)
    ensures Decode64(Unpadded(b)).Some? <==> |b| % 3 == 0
  {
    UnpaddedIsChars(b);
    FeedSextets([], b);
    ScanChars(START, Sextets(b), "");
    assert Chars(Sextets(b)) + "" == Chars(Sextets(b));
  }
}
