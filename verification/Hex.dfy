/** Hexadecimal text, as the browser writes and reads it and as the upload service checks it.

    JavaScript's `parseInt(pair, 16)` is lenient: it skips blanks, takes a sign and stops at the
    first character that is not a digit. It is modelled as it is. */
module Hex {
  import opened Wrappers
  import opened Bytes

  function HexDigit(n: nat): (c: char)
    requires n < 16
  {
    if n < 10 then '0' + n as char else 'a' + (n - 10) as char
  }

  predicate IsHexChar(c: char) {
    '0' <= c <= '9' || 'a' <= c <= 'f' || 'A' <= c <= 'F'
  }

  predicate AllHex(s: string) {
    forall i :: 0 <= i < |s| ==> IsHexChar(s[i])
  }

  function DigitValue(c: char): (v: nat)
    requires IsHexChar(c)
    ensures v < 16
  {
    if '0' <= c <= '9' then (c - '0') as nat
    else if 'a' <= c <= 'f' then (c - 'a') as nat + 10
    else (c - 'A') as nat + 10
  }

  function LowerChar(c: char): char {
    if 'A' <= c <= 'Z' then c - 'A' + 'a' else c
  }

  /** Lower-casing, on the letters that can occur in hexadecimal text. */
  function Lower(s: string): (t: string)
    ensures |t| == |s|
    ensures forall i :: 0 <= i < |s| ==> t[i] == LowerChar(s[i])
  {
    seq(|s|, i requires 0 <= i < |s| => LowerChar(s[i]))
  }

  lemma DigitRoundTrip(n: nat, c: char)
    requires n < 16
    ensures IsHexChar(HexDigit(n)) && DigitValue(HexDigit(n)) == n && LowerChar(HexDigit(n)) == HexDigit(n)
    ensures IsHexChar(c) ==> HexDigit(DigitValue(c)) == LowerChar(c)
  {
  }

  // ---------------------------------------------------------------------
  // Writing
  // ---------------------------------------------------------------------

  /** Two digits for each byte. */
  function ToHex(b: Blob): (s: string)
    ensures |s| == 2 * |b|
    ensures AllHex(s) && Lower(s) == s
  {
    if b == [] then ""
    else
      var front := ToHex(b[..|b| - 1]);
      var last := b[|b| - 1];
      DigitRoundTrip(last / 16, 'a');
      DigitRoundTrip(last % 16, 'a');
      front + [HexDigit(last / 16), HexDigit(last % 16)]
  }

  /** `x.toString(16)`: no leading zeros. */
  function NatToHex(x: nat): (s: string)
    ensures |s| >= 1
  {
    if x < 16 then [HexDigit(x)] else NatToHex(x / 16) + [HexDigit(x % 16)]
  }

  function IntToHex(x: int): string {
    if x < 0 then "-" + NatToHex(-x) else NatToHex(x)
  }

  function PadStart(s: string, width: nat): (t: string)
    ensures |t| == if |s| < width then width else |s|
  {
    if |s| < width then seq(width - |s|, _ => '0') + s else s
  }

  function BigintToHex32(x: int): Result<string, HexError> {
    var hex := IntToHex(x);
    if |hex| > 64 then Err(DoesNotFit) else Ok(PadStart(hex, 64))
  }

  method WriteHex(bytes: Blob) returns (s: string)
    ensures s == ToHex(bytes)
  {
    s := "";
    for i := 0 to |bytes|
      invariant s == ToHex(bytes[..i])
    {
      PaddedDigits(bytes[i], 2);
      s := s + PadStart(NatToHex(bytes[i]), 2);
      assert bytes[..i + 1][..i] == bytes[..i];
      FixedDigitsOfByte(bytes[i]);
    }
    assert bytes[..|bytes|] == bytes;
  }

  // The digits of a number at a fixed width.

  function Pow16(k: nat): (p: nat)
    ensures p > 0
  {
    if k == 0 then 1 else 16 * Pow16(k - 1)
  }

  function FixedDigits(x: nat, k: nat): (s: string)
    ensures |s| == k
  {
    if k == 0 then "" else FixedDigits(x / 16, k - 1) + [HexDigit(x % 16)]
  }

  lemma FixedDigitsOfByte(b: Byte)
    ensures FixedDigits(b, 2) == [HexDigit(b / 16), HexDigit(b % 16)]
  {
    OneDigit(b / 16);
  }

  lemma OneDigit(x: nat)
    requires x < 16
    ensures FixedDigits(x, 1) == [HexDigit(x)]
  {
  }

  lemma {:induction false} FixedDigitsOfZero(k: nat)
    ensures FixedDigits(0, k) == seq(k, _ => '0')
  {
    if k != 0 {
      FixedDigitsOfZero(k - 1);
    }
  }

  /** Written without leading zeros a number is longer than `k` digits exactly when it is 16^k or
      more; otherwise padding gives its `k` digits. */
  lemma {:induction false} PaddedDigits(x: nat, k: nat)
    requires k >= 1
    ensures |NatToHex(x)| <= k <==> x < Pow16(k)
    ensures x < Pow16(k) ==> PadStart(NatToHex(x), k) == FixedDigits(x, k)
  {
    assert Pow16(k) == 16 * Pow16(k - 1);
    if x < 16 {
      assert Pow16(k - 1) >= 1;
      FixedDigitsOfZero(k - 1);
      assert FixedDigits(x, k) == FixedDigits(0, k - 1) + [HexDigit(x)];
    } else if k == 1 {
      assert Pow16(0) == 1;
      assert |NatToHex(x)| == |NatToHex(x / 16)| + 1;
    } else {
      PaddedDigits(x / 16, k - 1);
      if x < Pow16(k) {
        var shorter := NatToHex(x / 16);
        assert NatToHex(x) == shorter + [HexDigit(x % 16)];
        assert PadStart(NatToHex(x), k) == PadStart(shorter, k - 1) + [HexDigit(x % 16)];
      }
    }
  }

  lemma {:induction false} Pow16IsPow256(n: nat)
    ensures Pow16(2 * n) == Pow256(n)
  {
    if n != 0 {
      Pow16IsPow256(n - 1);
      assert Pow16(2 * n) == 16 * Pow16(2 * n - 1) == 16 * 16 * Pow16(2 * n - 2);
    }
  }

  /** The hexadecimal digits of a number are those of its big-endian bytes. */
  lemma {:induction false} HexOfBytes(x: nat, n: nat)
    ensures ToHex(ToBE(x, n)) == FixedDigits(x, 2 * n)
  {
    if n != 0 {
      HexOfBytes(x / 256, n - 1);
      var b := ToBE(x, n);
      assert b[..|b| - 1] == ToBE(x / 256, n - 1);
      assert x % 256 / 16 == x / 16 % 16 && x % 256 % 16 == x % 16 && x / 16 / 16 == x / 256;
      assert FixedDigits(x, 2 * n) == FixedDigits(x / 16, 2 * n - 1) + [HexDigit(x % 16)];
      assert FixedDigits(x / 16, 2 * n - 1) == FixedDigits(x / 16 / 16, 2 * n - 2) + [HexDigit(x / 16 % 16)];
    }
  }

  /** The browser's 64-digit text of a number is the hexadecimal of its 32-byte encoding, and it
      refuses exactly the numbers without one. */
  lemma BigintToHex32Agrees(x: nat)
    ensures BigintToHex32(x).Ok? <==> Encode32(x).Ok?
    ensures Encode32(x).Ok? ==> BigintToHex32(x) == Ok(ToHex(Encode32(x).value))
  {
    PaddedDigits(x, 64);
    Pow16IsPow256(32);
    PowersNamed();
    HexOfBytes(x, 32);
  }

  lemma {:induction false} ToHexAt(b: Blob, i: nat)
    requires i < |b|
    ensures ToHex(b)[2 * i] == HexDigit(b[i] / 16) && ToHex(b)[2 * i + 1] == HexDigit(b[i] % 16)
    decreases |b|
  {
    if i < |b| - 1 {
      ToHexAt(b[..|b| - 1], i);
    }
  }

  lemma ByteOfDigits(m: Byte, n: Byte)
    requires HexDigit(m / 16) == HexDigit(n / 16) && HexDigit(m % 16) == HexDigit(n % 16)
    ensures m == n
  {
    DigitRoundTrip(m / 16, 'a');
    DigitRoundTrip(n / 16, 'a');
    DigitRoundTrip(m % 16, 'a');
    DigitRoundTrip(n % 16, 'a');
  }

  lemma ToHexInjective(a: Blob, b: Blob)
    requires ToHex(a) == ToHex(b)
    ensures a == b
  {
    assert |ToHex(a)| == 2 * |a| && |ToHex(b)| == 2 * |b|;
    forall i | 0 <= i < |a|
      ensures a[i] == b[i]
    {
      ToHexAt(a, i);
      ToHexAt(b, i);
      ByteOfDigits(a[i], b[i]);
    }
  }

  // ---------------------------------------------------------------------
  // Reading
  // ---------------------------------------------------------------------

  datatype HexError = OddLength | InvalidHex(offset: nat) | DoesNotFit

  predicate IsBlank(c: char) {
    '\t' <= c <= '\r' || c == ' ' || c == '\U{00A0}' || c == '\U{FEFF}' || c == '\U{1680}'
    || '\U{2000}' <= c <= '\U{200A}' || c == '\U{2028}' || c == '\U{2029}' || c == '\U{202F}'
    || c == '\U{205F}' || c == '\U{3000}'
  }

  function SkipBlanks(s: string): (t: string)
    ensures |t| <= |s|
  {
    if s != [] && IsBlank(s[0]) then SkipBlanks(s[1..]) else s
  }

  function HexPrefix(s: string): (t: string)
    ensures |t| <= |s| && AllHex(t)
  {
    if s != [] && IsHexChar(s[0]) then [s[0]] + HexPrefix(s[1..]) else []
  }

  function HexValue(s: string): nat
    requires AllHex(s)
  {
    if s == [] then 0 else HexValue(s[..|s| - 1]) * 16 + DigitValue(s[|s| - 1])
  }

  /** `parseInt(s, 16)`; `None` is NaN. */
  function ParseInt16(s: string): Option<int> {
    var t := SkipBlanks(s);
    var negative := t != [] && t[0] == '-';
    var u := if t != [] && (t[0] == '-' || t[0] == '+') then t[1..] else t;
    var v := if |u| >= 2 && u[0] == '0' && (u[1] == 'x' || u[1] == 'X') then u[2..] else u;
    var digits := HexPrefix(v);
    if digits == [] then None
    else Some(if negative then 0 - HexValue(digits) else HexValue(digits))
  }

  function StripPrefix(s: string): string {
    if |s| >= 2 && s[..2] == "0x" then s[2..] else s
  }

  /** How a pair of characters is read: `parseInt(pair, 16)`, with `None` for NaN. */
  type PairReader = string -> Option<int>

  /** Pairs from the left; the first pair that is not a number is the error. A negative value wraps
      around when it is stored in a byte array. */
  function ReadPairs(parse: PairReader, s: string, from: nat): Result<Blob, HexError>
    requires |s| % 2 == 0 && from % 2 == 0 && from <= |s|
    decreases |s| - from
  {
    if from == |s| then Ok([])
    else
      match parse(s[from..from + 2])
      case None => Err(InvalidHex(from))
      case Some(v) => Prepend([v % 256], ReadPairs(parse, s, from + 2))
  }

  function HexToBytes(hex: string): Result<Blob, HexError> {
    var clean := StripPrefix(hex);
    if |clean| % 2 != 0 then Err(OddLength) else ReadPairs(ParseInt16, clean, 0)
  }

  method ReadHex(hex: string) returns (r: Result<Blob, HexError>)
    ensures r == HexToBytes(hex)
  {
    var clean := StripPrefix(hex);
    if |clean| % 2 != 0 {
      return Err(OddLength);
    }
    r := FillPairs(ParseInt16, clean);
  }

  method FillPairs(parse: PairReader, clean: string) returns (r: Result<Blob, HexError>)
    requires |clean| % 2 == 0
    ensures r == ReadPairs(parse, clean, 0)
  {
    var out := new Byte[|clean| / 2](_ => 0);
    ghost var all := ReadPairs(parse, clean, 0);
    assert all.Ok? ==> out[..0] + all.value == all.value;
    for i := 0 to out.Length
      invariant all == Prepend(out[..i], ReadPairs(parse, clean, 2 * i))
    {
      var byte := parse(clean[2 * i..2 * i + 2]);
      if byte.None? {
        return Err(InvalidHex(2 * i));
      }
      out[i] := byte.value % 256;
      PrependSnoc(out[..i], out[i], ReadPairs(parse, clean, 2 * i + 2));
      assert out[..i + 1] == out[..i] + [out[i]];
    }
    assert out[..out.Length] == out[..];
    assert 2 * out.Length == |clean| && ReadPairs(parse, clean, |clean|) == Ok([]);
    assert out[..] + [] == out[..];
    return Ok(out[..]);
  }

  function Prepend(front: Blob, rest: Result<Blob, HexError>): Result<Blob, HexError> {
    match rest
    case Err(e) => Err(e)
    case Ok(b) => Ok(front + b)
  }

  lemma PrependSnoc(front: Blob, b: Byte, rest: Result<Blob, HexError>)
    ensures Prepend(front, Prepend([b], rest)) == Prepend(front + [b], rest)
  {
    if rest.Ok? {
      assert front + ([b] + rest.value) == front + [b] + rest.value;
    }
  }

  // ---------------------------------------------------------------------
  // Reading what was written
  // ---------------------------------------------------------------------

  lemma ParsePairOfHex(c: char, d: char)
    requires IsHexChar(c) && IsHexChar(d)
    ensures ParseInt16([c, d]) == Some(DigitValue(c) * 16 + DigitValue(d))
  {
    var s := [c, d];
    assert SkipBlanks(s) == s;
    assert s[1..] == [d] && [d][1..] == [];
    assert HexPrefix([d]) == [d];
    assert HexPrefix(s) == [c] + HexPrefix([d]) == s;
    assert s[..1] == [c] && [c][..0] == [];
    assert HexValue([c]) == DigitValue(c);
  }

  /** The bytes that proper hexadecimal text spells. */
  function Spelled(s: string): (b: Blob)
    requires AllHex(s) && |s| % 2 == 0
    ensures |b| == |s| / 2 && forall i :: 0 <= i < |b| ==> b[i] == DigitValue(s[2 * i]) * 16 + DigitValue(s[2 * i + 1])
  {
    seq(|s| / 2, i requires 0 <= i < |s| / 2 && AllHex(s) => DigitValue(s[2 * i]) * 16 + DigitValue(s[2 * i + 1]))
  }

  /** When every pair reads as a byte, the text reads as those bytes. */
  lemma {:induction false} ReadPairsAre(parse: PairReader, s: string, b: Blob, k: nat)
    requires |s| == 2 * |b| && k <= |b|
    requires forall i :: 0 <= i < |b| ==> parse(s[2 * i..2 * i + 2]) == Some(b[i] as int)
    ensures ReadPairs(parse, s, 2 * k) == Ok(b[k..])
    decreases |b| - k
  {
    if k == |b| {
      assert b[k..] == [];
    } else {
      ReadPairsAre(parse, s, b, k + 1);
      assert parse(s[2 * k..2 * k + 2]) == Some(b[k] as int);
      assert b[k..] == [b[k]] + b[k + 1..];
    }
  }

  lemma HexReadsAsSpelled(s: string)
    requires AllHex(s) && |s| % 2 == 0
    ensures HexToBytes(s) == Ok(Spelled(s))
  {
    assert |s| >= 2 ==> s[..2][1] == s[1] && IsHexChar(s[1]) && "0x"[1] == 'x';
    forall i | 0 <= i < |Spelled(s)|
      ensures ParseInt16(s[2 * i..2 * i + 2]) == Some(Spelled(s)[i] as int)
    {
      assert s[2 * i..2 * i + 2] == [s[2 * i], s[2 * i + 1]];
      ParsePairOfHex(s[2 * i], s[2 * i + 1]);
    }
    ReadPairsAre(ParseInt16, s, Spelled(s), 0);
    assert Spelled(s)[0..] == Spelled(s);
  }

  lemma SpelledByte(c: char, d: char)
    requires IsHexChar(c) && IsHexChar(d)
    ensures var n := DigitValue(c) * 16 + DigitValue(d); HexDigit(n / 16) == LowerChar(c) && HexDigit(n % 16) == LowerChar(d)
  {
    DigitsOfByte(DigitValue(c), DigitValue(d));
    DigitRoundTrip(DigitValue(c), c);
    DigitRoundTrip(DigitValue(d), d);
  }

  lemma SpelledAt(s: string, i: nat)
    requires AllHex(s) && |s| % 2 == 0 && i < |s| / 2
    ensures ToHex(Spelled(s))[2 * i] == LowerChar(s[2 * i]) && ToHex(Spelled(s))[2 * i + 1] == LowerChar(s[2 * i + 1])
  {
    ToHexAt(Spelled(s), i);
    SpelledByte(s[2 * i], s[2 * i + 1]);
  }

  lemma DigitsOfByte(high: nat, low: nat)
    requires high < 16 && low < 16
    ensures (high * 16 + low) / 16 == high && (high * 16 + low) % 16 == low
  {
  }

  lemma SpelledThenWritten(s: string)
    requires AllHex(s) && |s| % 2 == 0
    ensures ToHex(Spelled(s)) == Lower(s)
  {
    forall k | 0 <= k < |s|
      ensures ToHex(Spelled(s))[k] == LowerChar(s[k])
    {
      SpelledAt(s, k / 2);
      assert k == 2 * (k / 2) || k == 2 * (k / 2) + 1;
    }
  }

  /** What the browser reads from proper hexadecimal text is written back as that text, lower-cased. */
  lemma HexReadThenWritten(s: string)
    requires AllHex(s) && |s| % 2 == 0
    ensures HexToBytes(s).Ok? && |HexToBytes(s).value| == |s| / 2
    ensures ToHex(HexToBytes(s).value) == Lower(s)
  {
    HexReadsAsSpelled(s);
    SpelledThenWritten(s);
  }

  /** Writing and reading back gives the bytes. */
  lemma HexRoundTrip(b: Blob)
    ensures HexToBytes(ToHex(b)) == Ok(b)
  {
    HexReadThenWritten(ToHex(b));
    ToHexInjective(HexToBytes(ToHex(b)).value, b);
  }

  /** The reader accepts text that is not hexadecimal; it is faithful exactly on text that is. */
  lemma HexFaithfulIff(s: string)
    requires StripPrefix(s) == s && HexToBytes(s).Ok?
    ensures ToHex(HexToBytes(s).value) == Lower(s) <==> AllHex(s)
  {
    if AllHex(s) {
      HexReadThenWritten(s);
    } else {
      var i :| 0 <= i < |s| && !IsHexChar(s[i]);
      assert !IsHexChar(Lower(s)[i]);
      assert AllHex(ToHex(HexToBytes(s).value));
    }
  }

  /** "1g" is read as the single byte 1. */
  lemma HexReaderIsLenient()
    ensures HexToBytes("1g") == Ok([1]) && !AllHex("1g")
  {
    var s := "1g";
    assert s[0..2] == s && s[..2][0] == '1';
    assert StripPrefix(s) == s && SkipBlanks(s) == s;
    assert HexPrefix(s[1..]) == [];
    assert HexPrefix(s) == ['1'] + HexPrefix(s[1..]) == ['1'];
    assert ['1'][..0] == [];
    assert HexValue(['1']) == HexValue(['1'][..0]) * 16 + DigitValue('1') == 1;
    assert ParseInt16(s) == Some(1);
    assert ReadPairs(ParseInt16, s, 2) == Ok([]);
    assert ReadPairs(ParseInt16, s, 0) == Ok([1 % 256] + []) && [1] + [] == [1];
    assert HexToBytes(s) == ReadPairs(ParseInt16, s, 0);
    assert !IsHexChar(s[1]);
  }

  // ---------------------------------------------------------------------
  // The upload service's check
  // ---------------------------------------------------------------------

  /** The pattern `^[0-9a-fA-F]{64}$`: in Python `$` also matches before a final newline. */
  predicate IsHex64(s: string) {
    (|s| == 64 && AllHex(s)) || (|s| == 65 && AllHex(s[..64]) && s[64] == '\n')
  }
}
