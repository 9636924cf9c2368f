/** Byte strings, and the big- and little-endian integers they stand for.

    JavaScript's `x & 0xffn` and `x >>= 8n` on a non-negative bigint are `% 256` and `/ 256`;
    `(acc << 8n) | b` for a byte `b` is `acc * 256 + b`. */
module Bytes {
  import opened Wrappers

  type Byte = x: int | 0 <= x < 256
  type Blob = seq<Byte>
  type Bytes16 = b: Blob | |b| == 16 witness Zeros(16)
  type Bytes32 = b: Blob | |b| == 32 witness Zeros(32)
  type Bytes64 = b: Blob | |b| == 64 witness Zeros(64)
  type Bytes128 = b: Blob | |b| == 128 witness Zeros(128)
  type Bytes256 = b: Blob | |b| == 256 witness Zeros(256)

  const TWO_128: nat := 0x1_00000000_00000000_00000000_00000000
  const TWO_252: nat := 0x10000000_00000000_00000000_00000000_00000000_00000000_00000000_00000000
  const TWO_256: nat := 0x1_00000000_00000000_00000000_00000000_00000000_00000000_00000000_00000000

  function Zeros(n: nat): (b: Blob)
    ensures |b| == n && forall i :: 0 <= i < n ==> b[i] == 0
  {
    seq(n, _ => 0)
  }

  const ZERO_WORD: Bytes32 := Zeros(32)

  // ---------------------------------------------------------------------
  // Reference definitions
  // ---------------------------------------------------------------------

  function Pow256(n: nat): (p: nat)
    ensures p > 0
  {
    if n == 0 then 1 else 256 * Pow256(n - 1)
  }

  /** The number whose big-endian digits are `b`. */
  function BE(b: Blob): nat {
    if b == [] then 0 else BE(b[..|b| - 1]) * 256 + b[|b| - 1]
  }

  /** The `n` low big-endian digits of `x`. */
  function ToBE(x: nat, n: nat): (b: Blob)
    ensures |b| == n
  {
    if n == 0 then [] else ToBE(x / 256, n - 1) + [x % 256]
  }

  /** The `n` low little-endian digits of `x`. */
  function ToLE(x: nat, n: nat): (b: Blob)
    ensures |b| == n
  {
    if n == 0 then [] else [x % 256] + ToLE(x / 256, n - 1)
  }

  function Reverse<T>(s: seq<T>): (r: seq<T>)
    ensures |r| == |s|
  {
    if s == [] then [] else Reverse(s[1..]) + [s[0]]
  }

  /** The concatenation of a list of 32-byte words. */
  function Flatten(words: seq<Bytes32>): (b: Blob)
    ensures |b| == 32 * |words|
  {
    if words == [] then [] else words[0] + Flatten(words[1..])
  }

  // ---------------------------------------------------------------------
  // Laws
  // ---------------------------------------------------------------------

  lemma {:induction false} Pow256Add(m: nat, n: nat)
    ensures Pow256(m + n) == Pow256(m) * Pow256(n)
  {
    if m == 0 {
    } else {
      Pow256Add(m - 1, n);
      assert Pow256(m + n) == 256 * Pow256(m - 1 + n);
    }
  }

  lemma PowersNamed()
    ensures Pow256(16) == TWO_128 && Pow256(32) == TWO_256
  {
    assert Pow256(1) == 256;
    Pow256Add(1, 1);
    Pow256Add(2, 2);
    Pow256Add(4, 4);
    Pow256Add(8, 8);
    Pow256Add(16, 16);
  }

  lemma {:induction false} BEBound(b: Blob)
    ensures BE(b) < Pow256(|b|)
  {
    if b != [] {
      BEBound(b[..|b| - 1]);
    }
  }

  lemma {:induction false} BEOfToBE(x: nat, n: nat)
    requires x < Pow256(n)
    ensures BE(ToBE(x, n)) == x
  {
    if n != 0 {
      BEOfToBE(x / 256, n - 1);
      var b := ToBE(x, n);
      assert b[..|b| - 1] == ToBE(x / 256, n - 1);
    }
  }

  lemma {:induction false} ToBEOfBE(b: Blob)
    ensures ToBE(BE(b), |b|) == b
  {
    if b != [] {
      var front := b[..|b| - 1];
      ToBEOfBE(front);
      assert BE(b) / 256 == BE(front);
      assert b == front + [b[|b| - 1]];
    }
  }

  /** Words of one length are determined by the number they stand for. */
  lemma BEInjective(a: Blob, b: Blob)
    requires |a| == |b| && BE(a) == BE(b)
    ensures a == b
  {
    ToBEOfBE(a);
    ToBEOfBE(b);
  }

  lemma {:induction false} BEConcat(a: Blob, b: Blob)
    ensures BE(a + b) == BE(a) * Pow256(|b|) + BE(b)
  {
    if b == [] {
      assert a + b == a;
    } else {
      var front := b[..|b| - 1];
      BEConcat(a, front);
      assert (a + b)[..|a + b| - 1] == a + front;
      assert Pow256(|b|) == 256 * Pow256(|front|);
      assert BE(a) * Pow256(|b|) == BE(a) * Pow256(|front|) * 256;
    }
  }

  lemma {:induction false} BEOfZeros(n: nat)
    ensures BE(Zeros(n)) == 0
  {
    if n != 0 {
      BEOfZeros(n - 1);
      assert Zeros(n)[..n - 1] == Zeros(n - 1);
    }
  }

  /** A number that fits in fewer digits is padded with zeros on the left. */
  lemma ToBEPads(x: nat, pad: nat, n: nat)
    requires x < Pow256(n)
    ensures ToBE(x, pad + n) == Zeros(pad) + ToBE(x, n)
  {
    var padded := Zeros(pad) + ToBE(x, n);
    BEConcat(Zeros(pad), ToBE(x, n));
    BEOfZeros(pad);
    BEOfToBE(x, n);
    ToBEOfBE(padded);
  }

  lemma {:induction false} ReverseConcat<T>(a: seq<T>, b: seq<T>)
    ensures Reverse(a + b) == Reverse(b) + Reverse(a)
  {
    if a == [] {
      assert a + b == b;
    } else {
      assert (a + b)[1..] == a[1..] + b;
      ReverseConcat(a[1..], b);
    }
  }

  /** Reversing the little-endian digits gives the big-endian ones. */
  lemma {:induction false} ReverseOfToLE(x: nat, n: nat)
    ensures Reverse(ToLE(x, n)) == ToBE(x, n)
  {
    if n != 0 {
      ReverseOfToLE(x / 256, n - 1);
      assert ToLE(x, n)[1..] == ToLE(x / 256, n - 1);
    }
  }

  lemma {:induction false} FlattenInjective(a: seq<Bytes32>, b: seq<Bytes32>)
    requires Flatten(a) == Flatten(b)
    ensures a == b
  {
    if a == [] {
    } else {
      assert |b| == |a|;
      assert a[0] == Flatten(a)[..32] == Flatten(b)[..32] == b[0];
      assert Flatten(a[1..]) == Flatten(a)[32..] == Flatten(b)[32..] == Flatten(b[1..]);
      FlattenInjective(a[1..], b[1..]);
      assert a == [a[0]] + a[1..] && b == [b[0]] + b[1..];
    }
  }

  lemma {:induction false} FlattenSnoc(words: seq<Bytes32>, last: Bytes32)
    ensures Flatten(words + [last]) == Flatten(words) + last
  {
    if words == [] {
      assert words + [last] == [last];
      assert Flatten([last]) == last + Flatten([]);
    } else {
      assert (words + [last])[1..] == words[1..] + [last];
      FlattenSnoc(words[1..], last);
    }
  }

  lemma FlattenOne(word: Bytes32)
    ensures Flatten([word]) == word
  {
    assert Flatten([word]) == word + Flatten([]);
  }

  // ---------------------------------------------------------------------
  // The loops the clients run
  // ---------------------------------------------------------------------

  datatype CodecError = Negative | TooWide | WrongLength

  /** What a 32-byte big-endian encoding of `x` is, when there is one. */
  function Encode32(x: int): (r: Result<Bytes32, CodecError>)
  {
    if x < 0 then Err(Negative)
    else if x >= TWO_256 then Err(TooWide)
    else Ok(ToBE(x, 32))
  }

  /** The encoder fills a buffer from the low end and complains when something is left over. */
  method BigIntToBEBytes32(x: int) returns (r: Result<Bytes32, CodecError>)
    ensures r == Encode32(x)
  {
    if x < 0 {
      return Err(Negative);
    }
    var out := new Byte[32](_ => 0);
    var remaining: nat := x;
    var i := 32;
    while i > 0
      invariant 0 <= i <= 32
      invariant x == remaining * Pow256(32 - i) + BE(out[i..])
    {
      i := i - 1;
      ghost var low := out[i + 1..];
      ghost var digit := remaining % 256;
      out[i] := remaining % 256;
      assert out[i..] == [digit] + low;
      BEConcat([digit], low);
      assert BE([digit]) == digit by {
        assert [digit][..0] == [];
      }
      SplitDigit(remaining, Pow256(|low|));
      remaining := remaining / 256;
    }
    PowersNamed();
    assert out[0..] == out[..];
    BEBound(out[..]);
    if remaining != 0 {
      assert remaining * TWO_256 >= TWO_256;
      return Err(TooWide);
    }
    ToBEOfBE(out[..]);
    return Ok(out[..]);
  }

  lemma SplitDigit(n: nat, power: nat)
    ensures n * power == (n / 256) * (256 * power) + (n % 256) * power
  {
    assert n == 256 * (n / 256) + n % 256;
  }

  method BEBytes32ToBigInt(bytes: Blob) returns (r: Result<nat, CodecError>)
    ensures r == if |bytes| == 32 then Ok(BE(bytes)) else Err(WrongLength)
  {
    if |bytes| != 32 {
      return Err(WrongLength);
    }
    var result: nat := 0;
    for i := 0 to |bytes|
      invariant result == BE(bytes[..i])
    {
      assert bytes[..i + 1][..i] == bytes[..i];
      result := result * 256 + bytes[i];
    }
    assert bytes[..|bytes|] == bytes;
    return Ok(result);
  }

  /** The encoder and the decoder undo each other, and the encoder refuses exactly the numbers
      that are not 32 bytes long. */
  lemma Codec32(x: int, b: Bytes32)
    ensures Encode32(x).Ok? <==> 0 <= x < TWO_256
    ensures Encode32(x).Ok? ==> BE(Encode32(x).value) == x
    ensures Encode32(BE(b)) == Ok(b)
  {
    PowersNamed();
    if 0 <= x < TWO_256 {
      BEOfToBE(x, 32);
    }
    BEBound(b);
    ToBEOfBE(b);
  }
}
