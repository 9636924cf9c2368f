/** A 32-byte hash as two field elements, and the secret a wallet derives for it. The browser works
    on integers, the verifier program on zero-padded buffers; the two must agree byte for byte. */
module FieldHalves {
  import opened Wrappers
  import opened Base58
  import opened Bytes
  import opened Crypto
  import opened Hex

  // ---------------------------------------------------------------------
  // Splitting
  // ---------------------------------------------------------------------

  /** The halves as the verifier program expects them: 16 zero bytes, then 16 bytes of the hash. */
  function Halves(hash: Bytes32): (Bytes32, Bytes32) {
    (Zeros(16) + hash[..16], Zeros(16) + hash[16..])
  }

  function Split(hash: Bytes32): (nat, nat) {
    (BE(hash[..16]), BE(hash[16..]))
  }

  method HashToFieldHalves(hash: Bytes32) returns (hi: Bytes32, lo: Bytes32)
    ensures (hi, lo) == Halves(hash)
  {
    var high := new Byte[32](_ => 0);
    forall i | 0 <= i < 16 {
      high[16 + i] := hash[..16][i];
    }
    var low := new Byte[32](_ => 0);
    forall i | 0 <= i < 16 {
      low[16 + i] := hash[16..][i];
    }
    assert high[..] == Halves(hash).0;
    assert low[..] == Halves(hash).1;
    return high[..], low[..];
  }

  method SplitHash(hash: Blob) returns (r: Result<(nat, nat), CodecError>)
    ensures r == if |hash| == 32 then Ok(Split(hash)) else Err(WrongLength)
  {
    if |hash| != 32 {
      return Err(WrongLength);
    }
    var hi: nat, lo: nat := 0, 0;
    for i := 0 to 16
      invariant hi == BE(hash[..i])
    {
      assert hash[..i + 1][..i] == hash[..i];
      hi := hi * 256 + hash[i];
    }
    for i := 16 to 32
      invariant lo == BE(hash[16..i])
    {
      assert hash[16..i + 1][..i - 16] == hash[16..i];
      lo := lo * 256 + hash[i];
    }
    assert hash[16..32] == hash[16..];
    return Ok((hi, lo));
  }

  /** The browser's integers are below 2^128, make up the hash, and encode to exactly the halves the
      program expects. */
  lemma SplitEncodesToHalves(hash: Bytes32)
    ensures var (hi, lo) := Split(hash);
            && hi < TWO_128 && lo < TWO_128
            && hi * TWO_128 + lo == BE(hash)
            && Encode32(hi) == Ok(Halves(hash).0) && Encode32(lo) == Ok(Halves(hash).1)
  {
    var a, b := hash[..16], hash[16..];
    PowersNamed();
    assert a + b == hash;
    BEConcat(a, b);
    BEBound(a);
    BEBound(b);
    ToBEPads(BE(a), 16, 16);
    ToBEPads(BE(b), 16, 16);
    ToBEOfBE(a);
    ToBEOfBE(b);
  }

  /** Different hashes have different halves, and two public inputs pass the program's check exactly
      when they are the encodings of the browser's integers. */
  lemma HalvesPinTheHash(hash: Bytes32, other: Bytes32, hi: Bytes32, lo: Bytes32)
    ensures Halves(hash) == Halves(other) ==> hash == other
    ensures (hi, lo) == Halves(hash) <==> BE(hi) == Split(hash).0 && BE(lo) == Split(hash).1
    ensures (hi, lo) == Halves(hash) ==> hash == hi[16..] + lo[16..]
  {
    assert hash == hash[..16] + hash[16..] && other == other[..16] + other[16..];
    assert hash[..16] == Halves(hash).0[16..] && hash[16..] == Halves(hash).1[16..];
    assert other[..16] == Halves(other).0[16..] && other[16..] == Halves(other).1[16..];
    SplitEncodesToHalves(hash);
    Codec32(Split(hash).0, hi);
    Codec32(Split(hash).1, lo);
    if BE(hi) == Split(hash).0 && BE(lo) == Split(hash).1 {
      BEInjective(hi, Halves(hash).0);
      BEInjective(lo, Halves(hash).1);
    }
  }

  // ---------------------------------------------------------------------
  // The derived secret
  // ---------------------------------------------------------------------

  /** `sign` is the wallet's `signMessage`; deterministic signing is what makes it a function. */
  datatype Wallet = Wallet(key: Pubkey, sign: Blob -> Blob)

  datatype DeriveError = NotEd25519

  function Payload(domain: string, wallet: Pubkey, hash: Blob): string {
    domain + ":" + ToBase58(wallet) + ":" + ToHex(hash)
  }

  /** The low 252 bits, and 1 in place of 0. */
  function Masked(digest: Bytes32): (secret: nat)
    ensures 1 <= secret < TWO_252
    ensures if BE(digest) % TWO_252 == 0 then secret == 1 else (BE(digest) - secret) % TWO_252 == 0
  {
    var low := BE(digest) % TWO_252;
    if low == 0 then 1 else low
  }

  function Secret(c: Primitives, domain: string, w: Wallet, hash: Blob): Result<nat, DeriveError> {
    var signature := w.sign(c.utf8(Payload(domain, w.key, hash)));
    if |signature| != 64 then Err(NotEd25519) else Ok(Masked(c.sha256(signature)))
  }

  method DeriveDeterministicSecret(c: Primitives, domain: string, w: Wallet, hash: Blob) returns (r: Result<nat, DeriveError>)
    ensures r == Secret(c, domain, w, hash)
    ensures r.Ok? ==> 1 <= r.value < TWO_252
  {
    var hex := WriteHex(hash);
    var signature := w.sign(c.utf8(domain + ":" + ToBase58(w.key) + ":" + hex));
    if |signature| != 64 {
      return Err(NotEd25519);
    }
    var copy := new Byte[64](_ => 0);
    forall i | 0 <= i < 64 {
      copy[i] := signature[i];
    }
    assert copy[..] == signature;
    var digest := c.sha256(copy[..]);
    var secret: nat := 0;
    for i := 0 to |digest|
      invariant secret == BE(digest[..i])
    {
      assert digest[..i + 1][..i] == digest[..i];
      secret := secret * 256 + digest[i];
    }
    assert digest[..|digest|] == digest;
    secret := secret % TWO_252;
    return Ok(if secret == 0 then 1 else secret);
  }

  /** The guard against a secret outside the field never fires. */
  lemma SecretInsideField(c: Primitives, domain: string, w: Wallet, hash: Blob)
    requires Secret(c, domain, w, hash).Ok?
    ensures 0 < Secret(c, domain, w, hash).value < SCALAR_ORDER < BN254_P < TWO_256
  {
    assert TWO_252 < SCALAR_ORDER;
  }

  /** What a wallet signs determines the purpose, the wallet and the hash: an ownership payload is
      never a compliance payload, nor that of another wallet or another hash. */
  lemma PayloadDetermines(d: string, w: Pubkey, h: Blob, d': string, w': Pubkey, h': Blob)
    requires ':' !in d && ':' !in d'
    requires Payload(d, w, h) == Payload(d', w', h')
    ensures d == d' && w == w' && h == h'
  {
    var key, hex, key', hex' := ToBase58(w), ToHex(h), ToBase58(w'), ToHex(h');
    var rest, rest' := key + ":" + hex, key' + ":" + hex';
    assert Payload(d, w, h) == d + [':'] + rest && Payload(d', w', h') == d' + [':'] + rest';
    CutAtFirst(':', d, rest, d', rest');
    assert rest == key + [':'] + hex && rest' == key' + [':'] + hex';
    NoColonInBase58(w);
    NoColonInBase58(w');
    CutAtFirst(':', key, hex, key', hex');
    Base58Injective(w, w');
    ToHexInjective(h, h');
  }

  /** A text is cut in only one way at the first occurrence of a separator. */
  lemma CutAtFirst(sep: char, a: string, b: string, a': string, b': string)
    requires sep !in a && sep !in a'
    requires a + [sep] + b == a' + [sep] + b'
    ensures a == a' && b == b'
  {
    var s := a + [sep] + b;
    assert s[|a|] == sep && s[|a'|] == (a' + [sep] + b')[|a'|] == sep;
    assert forall i :: 0 <= i < |a| ==> s[i] == a[i] != sep;
    assert forall i :: 0 <= i < |a'| ==> s[i] == a'[i] != sep;
    assert a == s[..|a|] && a' == s[..|a'|];
    assert b == s[|a| + 1..] && b' == s[|a'| + 1..];
  }

  // ---------------------------------------------------------------------
  // The claim
  // ---------------------------------------------------------------------

  datatype Claim = Claim(hash: Bytes32, hi: nat, lo: nat, secret: nat, commitment: Scalar)

  /** The claim a wallet makes about a hash, under one of the two domain separators. */
  function ClaimFor(c: Primitives, domain: string, w: Wallet, hash: Bytes32): Result<Claim, DeriveError> {
    match Secret(c, domain, w, hash)
    case Err(e) => Err(e)
    case Ok(secret) =>
      var (hi, lo) := Split(hash);
      Ok(Claim(hash, hi, lo, secret, c.poseidon(secret, hi, lo)))
  }

  /** What a claim is made of: the two halves of the hash, the masked hash of the wallet's signature on the
      text that names purpose, wallet and hash, and the commitment of the three in the circuit's order. */
  lemma ClaimIs(c: Primitives, domain: string, w: Wallet, hash: Bytes32)
    ensures var signature := w.sign(c.utf8(domain + ":" + ToBase58(w.key) + ":" + ToHex(hash)));
            var claim := ClaimFor(c, domain, w, hash);
            && (claim.Ok? <==> |signature| == 64)
            && (claim.Ok? ==>
                  && claim.value.hash == hash
                  && claim.value.hi * TWO_128 + claim.value.lo == BE(hash) && claim.value.lo < TWO_128
                  && 1 <= claim.value.secret < TWO_252
                  && (if BE(c.sha256(signature)) % TWO_252 == 0 then claim.value.secret == 1
                      else (BE(c.sha256(signature)) - claim.value.secret) % TWO_252 == 0)
                  && claim.value.commitment == c.poseidon(claim.value.secret, claim.value.hi, claim.value.lo))
  {
    SplitEncodesToHalves(hash);
  }

  datatype PrepareError = Derive(error: DeriveError) | Length | SecretEscapedField

  /** Preparing the input of either circuit, from the bytes of a file or of a question. Of the
      errors in the code only the wallet's can occur, and the contract says so. */
  method PrepareInput(c: Primitives, domain: string, w: Wallet, contents: Blob) returns (r: Result<Claim, PrepareError>)
    ensures match ClaimFor(c, domain, w, c.sha256(contents))
            case Ok(claim) => r == Ok(claim)
            case Err(e) => r == Err(Derive(e))
  {
    var hash := c.sha256(contents);
    var halves := SplitHash(hash);
    if halves.Err? {
      return Err(Length);
    }
    var secret := DeriveDeterministicSecret(c, domain, w, hash);
    if secret.Err? {
      return Err(Derive(secret.error));
    }
    SecretInsideField(c, domain, w, hash);
    if secret.value >= BN254_P {
      return Err(SecretEscapedField);
    }
    var (hi, lo) := halves.value;
    return Ok(Claim(hash, hi, lo, secret.value, c.poseidon(secret.value, hi, lo)));
  }
}
