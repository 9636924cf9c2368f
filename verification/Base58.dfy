/** Base58 text, in which wallets and payment memos are written. */
module Base58 {
  import opened Bytes

  /** The alphabet: digits and letters without 0, I, O and l. */
  function Digit58(n: nat): char
    requires n < 58
  {
    if n < 9 then '1' + n as char
    else if n < 17 then 'A' + (n - 9) as char
    else if n < 22 then 'J' + (n - 17) as char
    else if n < 33 then 'P' + (n - 22) as char
    else if n < 44 then 'a' + (n - 33) as char
    else 'm' + (n - 44) as char
  }

  function Value58(c: char): nat {
    if '1' <= c <= '9' then (c - '1') as nat
    else if 'A' <= c <= 'H' then (c - 'A') as nat + 9
    else if 'J' <= c <= 'N' then (c - 'J') as nat + 17
    else if 'P' <= c <= 'Z' then (c - 'P') as nat + 22
    else if 'a' <= c <= 'k' then (c - 'a') as nat + 33
    else if 'm' <= c <= 'z' then (c - 'm') as nat + 44
    else 0
  }

  function Digits58(x: nat): string {
    if x == 0 then "" else Digits58(x / 58) + [Digit58(x % 58)]
  }

  function LeadingZeros(b: Blob): (n: nat)
    ensures n <= |b|
  {
    if b != [] && b[0] == 0 then 1 + LeadingZeros(b[1..]) else 0
  }

  /** A '1' for every leading zero byte, then the number in base 58. */
  function ToBase58(b: Blob): string {
    seq(LeadingZeros(b), _ => '1') + Digits58(BE(b))
  }

  function NumberOf(s: string): nat {
    if s == "" then 0 else NumberOf(s[..|s| - 1]) * 58 + Value58(s[|s| - 1])
  }

  lemma {:induction false} NumberOfDigits(ones: nat, x: nat)
    ensures NumberOf(seq(ones, _ => '1') + Digits58(x)) == x
    decreases x, ones
  {
    var s := seq(ones, _ => '1') + Digits58(x);
    if x != 0 {
      NumberOfDigits(ones, x / 58);
      assert s[..|s| - 1] == seq(ones, _ => '1') + Digits58(x / 58);
    } else if ones != 0 {
      NumberOfDigits(ones - 1, 0);
      assert s[..|s| - 1] == seq(ones - 1, _ => '1') + Digits58(0);
    }
  }

  function LeadingOnes(s: string): nat {
    if s != "" && s[0] == '1' then 1 + LeadingOnes(s[1..]) else 0
  }

  lemma {:induction false} DigitsStart(x: nat)
    requires x != 0
    ensures Digits58(x) != "" && Digits58(x)[0] != '1'
  {
    if x >= 58 {
      DigitsStart(x / 58);
    } else {
      assert Digits58(x / 58) == "";
    }
  }

  lemma {:induction false} LeadingOnesOf(ones: nat, x: nat)
    ensures LeadingOnes(seq(ones, _ => '1') + Digits58(x)) == ones
  {
    var s := seq(ones, _ => '1') + Digits58(x);
    if ones != 0 {
      LeadingOnesOf(ones - 1, x);
      assert s[1..] == seq(ones - 1, _ => '1') + Digits58(x);
    } else if x != 0 {
      DigitsStart(x);
    }
  }

  lemma {:induction false} LeadingZerosPadded(pad: nat, b: Blob)
    ensures LeadingZeros(Zeros(pad) + b) == pad + LeadingZeros(b)
  {
    if pad == 0 {
      assert Zeros(0) + b == b;
    } else {
      LeadingZerosPadded(pad - 1, b);
      assert (Zeros(pad) + b)[1..] == Zeros(pad - 1) + b;
    }
  }

  /** Of two byte strings with one text the longer one is the other behind zeros, and there are none. */
  lemma ShorterEqual(a: Blob, b: Blob)
    requires |a| <= |b| && ToBase58(a) == ToBase58(b)
    ensures a == b
  {
    NumberOfDigits(LeadingZeros(a), BE(a));
    NumberOfDigits(LeadingZeros(b), BE(b));
    LeadingOnesOf(LeadingZeros(a), BE(a));
    LeadingOnesOf(LeadingZeros(b), BE(b));
    var pad := |b| - |a|;
    var padded: Blob := Zeros(pad) + a;
    BEConcat(Zeros(pad), a);
    BEOfZeros(pad);
    BEInjective(padded, b);
    LeadingZerosPadded(pad, a);
    assert Zeros(0) + a == a;
  }

  /** Different byte strings have different texts, whatever their lengths. */
  lemma Base58Injective(a: Blob, b: Blob)
    requires ToBase58(a) == ToBase58(b)
    ensures a == b
  {
    if |a| <= |b| {
      ShorterEqual(a, b);
    } else {
      ShorterEqual(b, a);
    }
  }

  lemma {:induction false} NoColonInDigits(x: nat)
    ensures ':' !in Digits58(x)
  {
    if x != 0 {
      NoColonInDigits(x / 58);
    }
  }

  lemma NoColonInBase58(b: Blob)
    ensures ':' !in ToBase58(b)
  {
    NoColonInDigits(BE(b));
  }
}
