/** A snarkjs proof reshaped into the bytes the verifier program reads. The script and the browser
    carry the same code twice; this is both. */
module ProofConversion {
  import opened Wrappers
  import opened Bytes
  import opened Crypto

  datatype Fp2Text = Fp2Text(c0: string, c1: string)
  datatype G1Text = G1Text(x: string, y: string, z: string)
  datatype G2Text = G2Text(x: Fp2Text, y: Fp2Text, z: Fp2Text)
  datatype SnarkjsProof = SnarkjsProof(piA: G1Text, piB: G2Text, piC: G1Text, protocol: string, curve: string)

  datatype OnChainProof = OnChainProof(
    proofA: Bytes64, proofB: Bytes128, proofC: Bytes64, publicInputs: seq<Bytes32>, journalDigest: Bytes32)

  datatype ConvertError =
    | UnsupportedProtocol | UnsupportedCurve | G1NotAffine | G2NotAffine
    | NotANumber | YOutsideField | SignalOutsideField | DoesNotEncode(error: CodecError)

  /** `BigInt(text)`; `None` is the exception it throws. */
  type Parser = string -> Option<int>

  // ---------------------------------------------------------------------
  // Points
  // ---------------------------------------------------------------------

  function G1Bytes(x: int, y: int): Result<Bytes64, CodecError> {
    match Encode32(x)
    case Err(e) => Err(e)
    case Ok(xBytes) =>
      match Encode32(y)
      case Err(e) => Err(e)
      case Ok(yBytes) => Ok(xBytes + yBytes)
  }

  /** The second component of each coordinate comes first. */
  function G2Bytes(xc0: int, xc1: int, yc0: int, yc1: int): Result<Bytes128, CodecError> {
    match G1Bytes(xc1, xc0)
    case Err(e) => Err(e)
    case Ok(x) =>
      match G1Bytes(yc1, yc0)
      case Err(e) => Err(e)
      case Ok(y) => Ok(x + y)
  }

  /** Overwrite part of a buffer, as `out.set(part, offset)` does. */
  method Set(out: array<Byte>, part: Blob, offset: nat)
    requires offset + |part| <= out.Length
    modifies out
    ensures out[..] == old(out[..offset]) + part + old(out[offset + |part|..])
  {
    for i := 0 to |part|
      invariant out[..] == old(out[..offset]) + part[..i] + old(out[offset + i..])
    {
      out[offset + i] := part[i];
    }
  }

  method G1ToBytes(x: int, y: int) returns (r: Result<Bytes64, CodecError>)
    ensures r == G1Bytes(x, y)
  {
    var out := new Byte[64](_ => 0);
    var xBytes := BigIntToBEBytes32(x);
    if xBytes.Err? {
      return Err(xBytes.error);
    }
    Set(out, xBytes.value, 0);
    var yBytes := BigIntToBEBytes32(y);
    if yBytes.Err? {
      return Err(yBytes.error);
    }
    Set(out, yBytes.value, 32);
    assert out[..32] == xBytes.value && out[32..] == yBytes.value && out[..] == out[..32] + out[32..];
    return Ok(out[..]);
  }

  method G2ToBytes(xc0: int, xc1: int, yc0: int, yc1: int) returns (r: Result<Bytes128, CodecError>)
    ensures r == G2Bytes(xc0, xc1, yc0, yc1)
  {
    var out := new Byte[128](_ => 0);
    var x1 := BigIntToBEBytes32(xc1);
    if x1.Err? {
      return Err(x1.error);
    }
    Set(out, x1.value, 0);
    var x0 := BigIntToBEBytes32(xc0);
    if x0.Err? {
      return Err(x0.error);
    }
    Set(out, x0.value, 32);
    assert out[..32] == x1.value && out[32..64] == x0.value;
    var y1 := BigIntToBEBytes32(yc1);
    if y1.Err? {
      return Err(y1.error);
    }
    Set(out, y1.value, 64);
    assert out[..32] == x1.value && out[32..64] == x0.value && out[64..96] == y1.value;
    var y0 := BigIntToBEBytes32(yc0);
    if y0.Err? {
      return Err(y0.error);
    }
    Set(out, y0.value, 96);
    assert out[..32] == x1.value && out[32..64] == x0.value && out[64..96] == y1.value && out[96..] == y0.value;
    assert out[..] == out[..32] + out[32..64] + (out[64..96] + out[96..]);
    return Ok(out[..]);
  }

  /** The other root: the verifier wants the negated first point. */
  function NegateY(y: int): (r: Option<nat>)
    ensures r.Some? <==> 0 <= y < BN254_P
    ensures r.Some? ==> r.value < BN254_P && (y + r.value) % BN254_P == 0
  {
    if y < 0 || y >= BN254_P then None
    else if y == 0 then Some(0)
    else Some(BN254_P - y)
  }

  lemma NegateYInvolutive(y: int)
    requires NegateY(y).Some?
    ensures NegateY(NegateY(y).value) == Some(y)
  {
  }

  // ---------------------------------------------------------------------
  // The journal digest
  // ---------------------------------------------------------------------

  method ComputeJournalDigest(c: Primitives, inputs: seq<Blob>) returns (r: Result<Bytes32, CodecError>)
    ensures r.Ok? <==> forall i :: 0 <= i < |inputs| ==> |inputs[i]| == 32
    ensures r.Ok? ==> r.value == c.sha256(Flatten(inputs))
  {
    var total := 0;
    for i := 0 to |inputs|
      invariant forall j :: 0 <= j < i ==> |inputs[j]| == 32
      invariant total == 32 * i
    {
      if |inputs[i]| != 32 {
        return Err(WrongLength);
      }
      total := total + 32;
    }
    var words: seq<Bytes32> := inputs;
    var concat := new Byte[total](_ => 0);
    var offset := 0;
    for i := 0 to |inputs|
      invariant offset == 32 * i && concat[..offset] == Flatten(words[..i])
    {
      Set(concat, inputs[i], offset);
      offset := offset + 32;
      FlattenSnoc(words[..i], words[i]);
      assert words[..i + 1] == words[..i] + [words[i]];
    }
    assert words[..|inputs|] == words && concat[..offset] == concat[..];
    return Ok(c.sha256(concat[..]));
  }

  // ---------------------------------------------------------------------
  // The whole proof
  // ---------------------------------------------------------------------

  datatype Coordinates = Coordinates(ax: int, ay: int, bxc0: int, bxc1: int, byc0: int, byc1: int, cx: int, cy: int)

  function ReadCoordinates(big: Parser, p: SnarkjsProof): Option<Coordinates> {
    var ax, ay := big(p.piA.x), big(p.piA.y);
    var bxc0, bxc1, byc0, byc1 := big(p.piB.x.c0), big(p.piB.x.c1), big(p.piB.y.c0), big(p.piB.y.c1);
    var cx, cy := big(p.piC.x), big(p.piC.y);
    if ax.None? || ay.None? || bxc0.None? || bxc1.None? || byc0.None? || byc1.None? || cx.None? || cy.None? then None
    else Some(Coordinates(ax.value, ay.value, bxc0.value, bxc1.value, byc0.value, byc1.value, cx.value, cy.value))
  }

  predicate Fits(x: int) {
    0 <= x < TWO_256
  }

  /** Only the y of the first point is held to the field; the other coordinates need only fit. */
  predicate CoordinatesFit(k: Coordinates) {
    && Fits(k.ax) && 0 <= k.ay < BN254_P
    && Fits(k.bxc0) && Fits(k.bxc1) && Fits(k.byc0) && Fits(k.byc1)
    && Fits(k.cx) && Fits(k.cy)
  }

  predicate SignalFits(big: Parser, text: string) {
    big(text).Some? && 0 <= big(text).value < BN254_P
  }

  predicate Affine(p: SnarkjsProof) {
    p.piA.z == "1" && p.piC.z == "1" && p.piB.z == Fp2Text("1", "0")
  }

  /** The proofs the conversion accepts. */
  predicate Acceptable(big: Parser, p: SnarkjsProof, signals: seq<string>) {
    && p.protocol == "groth16" && p.curve == "bn128" && Affine(p)
    && ReadCoordinates(big, p).Some? && CoordinatesFit(ReadCoordinates(big, p).value)
    && forall i :: 0 <= i < |signals| ==> SignalFits(big, signals[i])
  }

  function SignalValue(big: Parser, text: string): (v: nat)
    requires SignalFits(big, text)
    ensures v < BN254_P
  {
    big(text).value
  }

  function SignalValues(big: Parser, signals: seq<string>): (v: seq<nat>)
    requires forall i :: 0 <= i < |signals| ==> SignalFits(big, signals[i])
    ensures |v| == |signals| && forall i :: 0 <= i < |v| ==> v[i] == SignalValue(big, signals[i])
  {
    seq(|signals|, i requires 0 <= i < |signals| && SignalFits(big, signals[i]) => SignalValue(big, signals[i]))
  }

  function EncodeAll(values: seq<nat>): (b: seq<Bytes32>)
    ensures |b| == |values| && forall i :: 0 <= i < |b| ==> b[i] == ToBE(values[i], 32)
  {
    seq(|values|, i requires 0 <= i < |values| => ToBE(values[i], 32))
  }

  /** The bytes that stand for given coordinates and signals. */
  function Encoded(c: Primitives, k: Coordinates, values: seq<nat>): OnChainProof
    requires CoordinatesFit(k)
  {
    OnChainProof(
      ToBE(k.ax, 32) + ToBE(NegateY(k.ay).value, 32),
      ToBE(k.bxc1, 32) + ToBE(k.bxc0, 32) + ToBE(k.byc1, 32) + ToBE(k.byc0, 32),
      ToBE(k.cx, 32) + ToBE(k.cy, 32),
      EncodeAll(values),
      c.sha256(Flatten(EncodeAll(values))))
  }

  /** What `convertSnarkjsProof` gives, and when. */
  function Convert(c: Primitives, big: Parser, p: SnarkjsProof, signals: seq<string>): Option<OnChainProof> {
    if Acceptable(big, p, signals) then Some(Encoded(c, ReadCoordinates(big, p).value, SignalValues(big, signals)))
    else None
  }

  method ConvertSignals(big: Parser, signals: seq<string>) returns (r: Result<seq<Bytes32>, ConvertError>)
    ensures r.Ok? <==> forall i :: 0 <= i < |signals| ==> SignalFits(big, signals[i])
    ensures r.Ok? ==> r.value == EncodeAll(SignalValues(big, signals))
    ensures r.Err? ==> r.error in {NotANumber, SignalOutsideField}
  {
    var publicInputs: seq<Bytes32> := [];
    for i := 0 to |signals|
      invariant |publicInputs| == i
      invariant forall j :: 0 <= j < i ==> SignalFits(big, signals[j]) && publicInputs[j] == ToBE(SignalValue(big, signals[j]), 32)
    {
      var v := big(signals[i]);
      if v.None? {
        return Err(NotANumber);
      }
      if v.value < 0 || v.value >= BN254_P {
        return Err(SignalOutsideField);
      }
      var word := BigIntToBEBytes32(v.value);
      publicInputs := publicInputs + [word.value];
    }
    return Ok(publicInputs);
  }

  method ConvertPoints(k: Coordinates) returns (r: Result<(Bytes64, Bytes128, Bytes64), ConvertError>)
    ensures r.Ok? <==> CoordinatesFit(k)
    ensures r.Ok? ==>
              r.value == (ToBE(k.ax, 32) + ToBE(NegateY(k.ay).value, 32),
                          ToBE(k.bxc1, 32) + ToBE(k.bxc0, 32) + ToBE(k.byc1, 32) + ToBE(k.byc0, 32),
                          ToBE(k.cx, 32) + ToBE(k.cy, 32))
    ensures r.Err? ==> r.error == YOutsideField || r.error.DoesNotEncode?
  {
    var negated := NegateY(k.ay);
    if negated.None? {
      return Err(YOutsideField);
    }
    var a := G1ToBytes(k.ax, negated.value);
    if a.Err? {
      return Err(DoesNotEncode(a.error));
    }
    var b := G2ToBytes(k.bxc0, k.bxc1, k.byc0, k.byc1);
    if b.Err? {
      return Err(DoesNotEncode(b.error));
    }
    var c := G1ToBytes(k.cx, k.cy);
    if c.Err? {
      return Err(DoesNotEncode(c.error));
    }
    assert b.value == ToBE(k.bxc1, 32) + ToBE(k.bxc0, 32) + ToBE(k.byc1, 32) + ToBE(k.byc0, 32);
    return Ok((a.value, b.value, c.value));
  }

  method ConvertSnarkjsProof(c: Primitives, big: Parser, p: SnarkjsProof, signals: seq<string>)
    returns (r: Result<OnChainProof, ConvertError>)
    ensures r.Ok? <==> Acceptable(big, p, signals)
    ensures r.Ok? ==> Convert(c, big, p, signals) == Some(r.value)
    ensures r == Err(UnsupportedProtocol) <==> p.protocol != "groth16"
    ensures r == Err(UnsupportedCurve) <==> p.protocol == "groth16" && p.curve != "bn128"
  {
    if p.protocol != "groth16" {
      return Err(UnsupportedProtocol);
    }
    if p.curve != "bn128" {
      return Err(UnsupportedCurve);
    }
    if p.piA.z != "1" || p.piC.z != "1" {
      return Err(G1NotAffine);
    }
    if p.piB.z.c0 != "1" || p.piB.z.c1 != "0" {
      return Err(G2NotAffine);
    }
    var read := ReadCoordinates(big, p);
    if read.None? {
      return Err(NotANumber);
    }
    var points := ConvertPoints(read.value);
    if points.Err? {
      return Err(points.error);
    }
    var publicInputs := ConvertSignals(big, signals);
    if publicInputs.Err? {
      return Err(publicInputs.error);
    }
    var digest := ComputeJournalDigest(c, publicInputs.value);
    var (a, b, cc) := points.value;
    return Ok(OnChainProof(a, b, cc, publicInputs.value, digest.value));
  }

  // ---------------------------------------------------------------------
  // Nothing is lost
  // ---------------------------------------------------------------------

  /** Read the coordinates and signals back from the bytes. */
  function Decode(o: OnChainProof): (Coordinates, seq<nat>) {
    var negated := BE(o.proofA[32..]);
    (Coordinates(
       BE(o.proofA[..32]), if NegateY(negated).Some? then NegateY(negated).value else 0,
       BE(o.proofB[32..64]), BE(o.proofB[..32]), BE(o.proofB[96..]), BE(o.proofB[64..96]),
       BE(o.proofC[..32]), BE(o.proofC[32..])),
     seq(|o.publicInputs|, i requires 0 <= i < |o.publicInputs| => BE(o.publicInputs[i])))
  }

  lemma WordOf(x: nat)
    requires x < TWO_256
    ensures BE(ToBE(x, 32)) == x
  {
    PowersNamed();
    BEOfToBE(x, 32);
  }

  /** For every proof it accepts, the conversion keeps all eight coordinates and every signal. */
  lemma ConversionLossless(c: Primitives, k: Coordinates, values: seq<nat>)
    requires CoordinatesFit(k) && forall i :: 0 <= i < |values| ==> values[i] < BN254_P
    ensures Decode(Encoded(c, k, values)) == (k, values)
  {
    var o := Encoded(c, k, values);
    var n := NegateY(k.ay).value;
    NegateYInvolutive(k.ay);
    forall x: nat | x < TWO_256
      ensures BE(ToBE(x, 32)) == x
    {
      WordOf(x);
    }
    assert o.proofA[..32] == ToBE(k.ax, 32) && o.proofA[32..] == ToBE(n, 32);
    assert o.proofB[..32] == ToBE(k.bxc1, 32) && o.proofB[32..64] == ToBE(k.bxc0, 32);
    assert o.proofB[64..96] == ToBE(k.byc1, 32) && o.proofB[96..] == ToBE(k.byc0, 32);
    assert o.proofC[..32] == ToBE(k.cx, 32) && o.proofC[32..] == ToBE(k.cy, 32);
    assert Decode(o).1 == values;
  }

  /** Two accepted proofs with the same bytes had the same coordinates and signals. */
  lemma ConversionInjective(c: Primitives, big: Parser, p: SnarkjsProof, s: seq<string>, q: SnarkjsProof, t: seq<string>)
    requires Acceptable(big, p, s) && Acceptable(big, q, t)
    requires Convert(c, big, p, s) == Convert(c, big, q, t)
    ensures ReadCoordinates(big, p) == ReadCoordinates(big, q) && SignalValues(big, s) == SignalValues(big, t)
  {
    ConversionLossless(c, ReadCoordinates(big, p).value, SignalValues(big, s));
    ConversionLossless(c, ReadCoordinates(big, q).value, SignalValues(big, t));
  }

  // ---------------------------------------------------------------------
  // From the texts of the proof to the bytes
  // ---------------------------------------------------------------------

  /** Every word of the bytes is the number its own text of the snarkjs proof spells: the first point with
      its y negated, the second component of each pair first, and the signals in order. */
  lemma ConversionReadsTexts(c: Primitives, big: Parser, p: SnarkjsProof, signals: seq<string>, o: OnChainProof)
    requires Convert(c, big, p, signals) == Some(o)
    ensures big(p.piA.x) == Some(BE(o.proofA[..32]) as int)
    ensures big(p.piA.y).Some? && (big(p.piA.y).value + BE(o.proofA[32..])) % BN254_P == 0
    ensures 0 <= big(p.piA.y).value < BN254_P && BE(o.proofA[32..]) < BN254_P
    ensures big(p.piB.x.c1) == Some(BE(o.proofB[..32]) as int) && big(p.piB.x.c0) == Some(BE(o.proofB[32..64]) as int)
    ensures big(p.piB.y.c1) == Some(BE(o.proofB[64..96]) as int) && big(p.piB.y.c0) == Some(BE(o.proofB[96..]) as int)
    ensures big(p.piC.x) == Some(BE(o.proofC[..32]) as int) && big(p.piC.y) == Some(BE(o.proofC[32..]) as int)
    ensures |o.publicInputs| == |signals|
    ensures forall i :: 0 <= i < |signals| ==> big(signals[i]) == Some(BE(o.publicInputs[i]) as int)
    ensures o.journalDigest == c.sha256(Flatten(o.publicInputs))
  {
    var k, values := ReadCoordinates(big, p).value, SignalValues(big, signals);
    ConversionLossless(c, k, values);
    var decoded := Decode(o);
    assert decoded == (k, values);
    NegatedWord(k.ay, o.proofA[32..]);
    forall i | 0 <= i < |signals|
      ensures big(signals[i]) == Some(BE(o.publicInputs[i]) as int)
    {
      WordOf(values[i]);
    }
  }

  lemma NegatedWord(y: int, word: Blob)
    requires NegateY(y).Some? && word == ToBE(NegateY(y).value, 32)
    ensures BE(word) < BN254_P && (y + BE(word)) % BN254_P == 0
  {
    WordOf(NegateY(y).value);
  }

  /** A proof is converted exactly when it is an affine groth16 proof over bn128 all of whose coordinates
      can be encoded, the first y and every signal inside the field. */
  lemma ConvertedIff(c: Primitives, big: Parser, p: SnarkjsProof, signals: seq<string>)
    ensures Convert(c, big, p, signals).Some? <==>
              && p.protocol == "groth16" && p.curve == "bn128"
              && p.piA.z == "1" && p.piC.z == "1" && p.piB.z.c0 == "1" && p.piB.z.c1 == "0"
              && (forall text :: text in {p.piA.x, p.piB.x.c0, p.piB.x.c1, p.piB.y.c0, p.piB.y.c1, p.piC.x, p.piC.y} ==>
                    big(text).Some? && Encode32(big(text).value).Ok?)
              && (forall text :: text == p.piA.y || text in signals ==> big(text).Some? && 0 <= big(text).value < BN254_P)
  {
    if forall text :: text == p.piA.y || text in signals ==> big(text).Some? && 0 <= big(text).value < BN254_P {
      assert forall i :: 0 <= i < |signals| ==> signals[i] in signals;
    }
    if Acceptable(big, p, signals) {
      forall text | text in signals
        ensures big(text).Some? && 0 <= big(text).value < BN254_P
      {
        var i :| 0 <= i < |signals| && signals[i] == text;
        assert SignalFits(big, signals[i]);
      }
    }
  }
}
