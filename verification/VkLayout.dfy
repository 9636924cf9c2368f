/** The verifying key: extracted from snarkjs JSON into byte arrays by a script, and laid out as one
    byte string by the verifier program. */
module VkLayout {
  import opened Wrappers
  import opened Bytes
  import opened ProofConversion

  datatype VkBytes = VkBytes(
    nrPubinputs: nat, alphaG1: Bytes64, betaG2: Bytes128, gammaG2: Bytes128, deltaG2: Bytes128, ic: seq<Bytes64>)

  // ---------------------------------------------------------------------
  // The extraction script
  // ---------------------------------------------------------------------

  type Coord = x: nat | x < TWO_256

  /** One entry of the JSON arrays: a number or a pair, until the script rewrites it in place. */
  datatype Cell =
    | Number(n: Coord)
    | Pair(c0: Coord, c1: Coord)
    | Row(bytes: Bytes32)
    | Rows(first: Bytes32, second: Bytes32)

  /** `LE(coord)`, reversed. */
  function G1Row(coord: Coord): Bytes32 {
    Reverse(ToLE(coord, 32))
  }

  /** `LE(c0) || LE(c1)`, reversed as one, then cut in two. */
  function G2Rows(c0: Coord, c1: Coord): (Bytes32, Bytes32) {
    var tmp := Reverse(ToLE(c0, 32) + ToLE(c1, 32));
    (tmp[..32], tmp[32..64])
  }

  /** Reversing the two little-endian words as one puts the second component first, big-endian:
      the very bytes the proof converter writes for the same point. */
  lemma G2RowsAgree(xc0: Coord, xc1: Coord, yc0: Coord, yc1: Coord)
    ensures G2Rows(xc0, xc1) == (ToBE(xc1, 32), ToBE(xc0, 32))
    ensures G2Bytes(xc0, xc1, yc0, yc1)
            == Ok(G2Rows(xc0, xc1).0 + G2Rows(xc0, xc1).1 + (G2Rows(yc0, yc1).0 + G2Rows(yc0, yc1).1))
    ensures G1Bytes(xc0, yc0) == Ok(G1Row(xc0) + G1Row(yc0))
  {
    G2RowsBigEndian(xc0, xc1);
    G2RowsBigEndian(yc0, yc1);
    ReverseOfToLE(xc0, 32);
    ReverseOfToLE(yc0, 32);
  }

  lemma G2RowsBigEndian(c0: Coord, c1: Coord)
    ensures G2Rows(c0, c1) == (ToBE(c1, 32), ToBE(c0, 32))
  {
    ReverseConcat(ToLE(c0, 32), ToLE(c1, 32));
    ReverseOfToLE(c0, 32);
    ReverseOfToLE(c1, 32);
    var tmp := ToBE(c1, 32) + ToBE(c0, 32);
    assert tmp[..32] == ToBE(c1, 32) && tmp[32..64] == ToBE(c0, 32);
  }

  datatype VkJson = VkJson(
    protocol: string, curve: string,
    alpha: seq<Cell>, beta: seq<Cell>, gamma: seq<Cell>, delta: seq<Cell>, ic: seq<seq<Cell>>)

  predicate G1Shaped(point: seq<Cell>) {
    |point| == 3 && forall j :: 0 <= j < 3 ==> point[j].Number?
  }

  predicate G2Shaped(point: seq<Cell>) {
    |point| == 3 && forall j :: 0 <= j < 3 ==> point[j].Pair?
  }

  /** The format snarkjs writes: three coordinates a point, the third of which is not emitted. */
  predicate Shaped(vk: VkJson) {
    && G1Shaped(vk.alpha) && G2Shaped(vk.beta) && G2Shaped(vk.gamma) && G2Shaped(vk.delta)
    && forall i :: 0 <= i < |vk.ic| ==> G1Shaped(vk.ic[i])
  }

  /** The bytes of the points, written the way the proof converter writes points. */
  function G1Of(point: seq<Cell>): Bytes64
    requires G1Shaped(point)
  {
    ToBE(point[0].n, 32) + ToBE(point[1].n, 32)
  }

  function G2Of(point: seq<Cell>): Bytes128
    requires G2Shaped(point)
  {
    ToBE(point[0].c1, 32) + ToBE(point[0].c0, 32) + ToBE(point[1].c1, 32) + ToBE(point[1].c0, 32)
  }

  function ICOf(ic: seq<seq<Cell>>): (words: seq<Bytes64>)
    requires forall i :: 0 <= i < |ic| ==> G1Shaped(ic[i])
    ensures |words| == |ic| && forall i :: 0 <= i < |ic| ==> words[i] == G1Of(ic[i])
  {
    seq(|ic|, i requires 0 <= i < |ic| && G1Shaped(ic[i]) => G1Of(ic[i]))
  }

  function ExtractedKey(vk: VkJson): VkBytes
    requires Shaped(vk)
  {
    VkBytes(|vk.ic|, G1Of(vk.alpha), G2Of(vk.beta), G2Of(vk.gamma), G2Of(vk.delta), ICOf(vk.ic))
  }

  /** A point after the in-place rewrite: two entries of byte rows, the third left alone. */
  function G1Rewritten(point: seq<Cell>): (rows: seq<Cell>)
    requires G1Shaped(point)
    ensures |rows| == 3
  {
    [Row(ToBE(point[0].n, 32)), Row(ToBE(point[1].n, 32)), point[2]]
  }

  function G2Rewritten(point: seq<Cell>): (rows: seq<Cell>)
    requires G2Shaped(point)
    ensures |rows| == 3
  {
    [Rows(ToBE(point[0].c1, 32), ToBE(point[0].c0, 32)), Rows(ToBE(point[1].c1, 32), ToBE(point[1].c0, 32)), point[2]]
  }

  predicate RewrittenFrom(vk: VkJson, json: VkJson)
    requires Shaped(json)
  {
    && vk.alpha == G1Rewritten(json.alpha) && vk.beta == G2Rewritten(json.beta)
    && vk.gamma == G2Rewritten(json.gamma) && vk.delta == G2Rewritten(json.delta)
    && |vk.ic| == |json.ic| && forall i :: 0 <= i < |vk.ic| ==> vk.ic[i] == G1Rewritten(json.ic[i])
  }

  datatype VkError = UnsupportedProtocol | UnsupportedCurve | IcTooShort

  /** The script rewrites the parsed document in place, then emits its rows. */
  class Extractor {
    var vk: VkJson

    constructor (vk: VkJson)
      ensures this.vk == vk
    {
      this.vk := vk;
    }

    /** All coordinates of a G1 point but the last become byte rows. */
    static method RewriteG1(point: seq<Cell>) returns (rows: seq<Cell>)
      requires G1Shaped(point)
      ensures rows == G1Rewritten(point)
    {
      rows := point;
      for j := 0 to |rows| - 1
        invariant |rows| == 3 && rows[j..] == point[j..]
        invariant forall k :: 0 <= k < j ==> rows[k] == Row(ToBE(point[k].n, 32))
      {
        assert rows[j] == rows[j..][0] == point[j..][0] == point[j];
        ReverseOfToLE(rows[j].n, 32);
        rows := rows[j := Row(G1Row(rows[j].n))];
      }
      assert rows[2] == rows[2..][0] == point[2..][0] == point[2];
    }

    static method RewriteG2(point: seq<Cell>) returns (rows: seq<Cell>)
      requires G2Shaped(point)
      ensures rows == G2Rewritten(point)
    {
      rows := point;
      for j := 0 to |rows| - 1
        invariant |rows| == 3 && rows[j..] == point[j..]
        invariant forall k :: 0 <= k < j ==> rows[k] == Rows(ToBE(point[k].c1, 32), ToBE(point[k].c0, 32))
      {
        assert rows[j] == rows[j..][0] == point[j..][0] == point[j];
        G2RowsBigEndian(rows[j].c0, rows[j].c1);
        var (first, second) := G2Rows(rows[j].c0, rows[j].c1);
        rows := rows[j := Rows(first, second)];
      }
      assert rows[2] == rows[2..][0] == point[2..][0] == point[2];
    }

    /** The emitted array literal of a rewritten point: every row but the last entry's. */
    static method Emit(rows: seq<Cell>) returns (bytes: Blob)
      requires |rows| >= 1 && forall j :: 0 <= j < |rows| - 1 ==> rows[j].Row? || rows[j].Rows?
      ensures bytes == Emitted(rows[..|rows| - 1])
    {
      bytes := [];
      for j := 0 to |rows| - 1
        invariant bytes == Emitted(rows[..j])
      {
        assert rows[..j + 1][..j] == rows[..j];
        bytes := bytes + if rows[j].Row? then rows[j].bytes else rows[j].first + rows[j].second;
      }
    }

    static function Emitted(rows: seq<Cell>): Blob {
      if rows == [] then []
      else
        var last := rows[|rows| - 1];
        Emitted(rows[..|rows| - 1]) + match last
                                      case Row(b) => b
                                      case Rows(a, b) => a + b
                                      case _ => []
    }

    static method EmitTwo(rows: seq<Cell>) returns (bytes: Blob)
      requires |rows| == 3 && (rows[0].Row? || rows[0].Rows?) && (rows[1].Row? || rows[1].Rows?)
      ensures rows[0].Row? && rows[1].Row? ==> bytes == rows[0].bytes + rows[1].bytes
      ensures rows[0].Rows? && rows[1].Rows? ==> bytes == rows[0].first + rows[0].second + rows[1].first + rows[1].second
    {
      bytes := Emit(rows);
      var two := rows[..2];
      assert two[..1][..0] == [] && two[..1] == [rows[0]];
      assert Emitted(two[..0]) == [];
      assert Emitted(two[..1]) == Emitted(two[..1][..0]) + if rows[0].Row? then rows[0].bytes else rows[0].first + rows[0].second;
      assert Emitted(two) == Emitted(two[..1]) + if rows[1].Row? then rows[1].bytes else rows[1].first + rows[1].second;
    }

    method RewriteInPlace()
      requires Shaped(vk)
      modifies this
      ensures RewrittenFrom(vk, old(vk))
    {
      ghost var json := vk;
      var alpha := RewriteG1(vk.alpha);
      vk := vk.(alpha := alpha);
      var beta := RewriteG2(vk.beta);
      vk := vk.(beta := beta);
      var gamma := RewriteG2(vk.gamma);
      vk := vk.(gamma := gamma);
      var delta := RewriteG2(vk.delta);
      vk := vk.(delta := delta);
      for i := 0 to |vk.ic|
        invariant |vk.ic| == |json.ic|
        invariant vk.(ic := json.ic) == json.(alpha := alpha, beta := beta, gamma := gamma, delta := delta)
        invariant forall k :: i <= k < |vk.ic| ==> vk.ic[k] == json.ic[k]
        invariant forall k :: 0 <= k < i ==> vk.ic[k] == G1Rewritten(json.ic[k])
      {
        var point := RewriteG1(vk.ic[i]);
        vk := vk.(ic := vk.ic[i := point]);
      }
    }

    method EmitKey(ghost json: VkJson) returns (key: VkBytes)
      requires Shaped(json) && RewrittenFrom(vk, json)
      ensures key == ExtractedKey(json)
    {
      var alphaG1 := EmitTwo(vk.alpha);
      var betaG2 := EmitTwo(vk.beta);
      var gammaG2 := EmitTwo(vk.gamma);
      var deltaG2 := EmitTwo(vk.delta);
      var words: seq<Bytes64> := [];
      for i := 0 to |vk.ic|
        invariant |words| == i && forall k :: 0 <= k < i ==> words[k] == G1Of(json.ic[k])
      {
        assert vk.ic[i] == G1Rewritten(json.ic[i]);
        var word := EmitTwo(vk.ic[i]);
        words := words + [word];
      }
      return VkBytes(|vk.ic|, alphaG1, betaG2, gammaG2, deltaG2, words);
    }

    method Extract() returns (r: Result<VkBytes, VkError>)
      requires Shaped(vk)
      modifies this
      ensures r.Ok? <==> old(vk.protocol == "groth16" && vk.curve == "bn128" && |vk.ic| >= 2)
      ensures r.Ok? ==> r.value == ExtractedKey(old(vk))
      ensures r.Err? ==> vk == old(vk)
    {
      if vk.protocol != "groth16" {
        return Err(VkError.UnsupportedProtocol);
      }
      if vk.curve != "bn128" {
        return Err(VkError.UnsupportedCurve);
      }
      if |vk.ic| < 2 {
        return Err(IcTooShort);
      }
      ghost var json := vk;
      RewriteInPlace();
      var key := EmitKey(json);
      return Ok(key);
    }
  }

  /** What is emitted of a rewritten point is its two coordinates as the proof converter writes them. */
  lemma RewrittenG1Emits(point: seq<Cell>)
    requires G1Shaped(point)
    ensures G1Bytes(point[0].n, point[1].n) == Ok(Extractor.Emitted(G1Rewritten(point)[..2]))
  {
    var two := G1Rewritten(point)[..2];
    assert two[..1][..0] == [] && two[..1] == [two[0]];
    assert Extractor.Emitted(two[..1][..0]) == [];
    assert Extractor.Emitted(two[..1]) == two[0].bytes;
  }

  lemma RewrittenG2Emits(point: seq<Cell>)
    requires G2Shaped(point)
    ensures G2Bytes(point[0].c0, point[0].c1, point[1].c0, point[1].c1) == Ok(Extractor.Emitted(G2Rewritten(point)[..2]))
  {
    var two := G2Rewritten(point)[..2];
    assert two[..1][..0] == [] && two[..1] == [two[0]];
    assert Extractor.Emitted(two[..1][..0]) == [];
    assert Extractor.Emitted(two[..1]) == two[0].first + two[0].second;
  }

  // ---------------------------------------------------------------------
  // The canonical layout
  // ---------------------------------------------------------------------

  function Flatten64(words: seq<Bytes64>): (b: Blob)
    ensures |b| == 64 * |words|
  {
    if words == [] then [] else words[0] + Flatten64(words[1..])
  }

  lemma {:induction false} Flatten64Snoc(words: seq<Bytes64>, last: Bytes64)
    ensures Flatten64(words + [last]) == Flatten64(words) + last
  {
    if words == [] {
      assert words + [last] == [last];
      assert Flatten64([last]) == last + Flatten64([]);
    } else {
      assert (words + [last])[1..] == words[1..] + [last];
      Flatten64Snoc(words[1..], last);
    }
  }

  function VkCanonicalBytes(vk: VkBytes): Blob {
    vk.alphaG1 + vk.betaG2 + vk.gammaG2 + vk.deltaG2 + Flatten64(vk.ic)
  }

  method VkCanonical(vk: VkBytes) returns (out: Blob)
    ensures out == VkCanonicalBytes(vk)
    ensures |out| == 448 + 64 * |vk.ic|
  {
    out := [];
    out := out + vk.alphaG1;
    out := out + vk.betaG2;
    out := out + vk.gammaG2;
    out := out + vk.deltaG2;
    ghost var head := out;
    for i := 0 to |vk.ic|
      invariant out == head + Flatten64(vk.ic[..i])
    {
      Flatten64Snoc(vk.ic[..i], vk.ic[i]);
      assert vk.ic[..i + 1] == vk.ic[..i] + [vk.ic[i]];
      out := out + vk.ic[i];
    }
    assert vk.ic[..|vk.ic|] == vk.ic;
  }

  function Chunks64(b: Blob): seq<Bytes64>
    requires |b| % 64 == 0
  {
    if b == [] then [] else [b[..64]] + Chunks64(b[64..])
  }

  /** Read a canonical key back. */
  function ParseVk(b: Blob): Option<VkBytes> {
    if |b| < 448 || (|b| - 448) % 64 != 0 then None
    else
      var ic := Chunks64(b[448..]);
      Some(VkBytes(|ic|, b[..64], b[64..192], b[192..320], b[320..448], ic))
  }

  lemma {:induction false} ChunksOfFlatten(words: seq<Bytes64>)
    ensures Chunks64(Flatten64(words)) == words
  {
    if words != [] {
      var b := Flatten64(words);
      assert b[..64] == words[0] && b[64..] == Flatten64(words[1..]);
      ChunksOfFlatten(words[1..]);
    }
  }

  /** The canonical bytes are of exactly one key, and of the length the verifier expects. */
  lemma CanonicalParses(vk: VkBytes)
    requires vk.nrPubinputs == |vk.ic|
    ensures |VkCanonicalBytes(vk)| == 448 + 64 * |vk.ic|
    ensures ParseVk(VkCanonicalBytes(vk)) == Some(vk)
  {
    var b := VkCanonicalBytes(vk);
    assert b[448..] == Flatten64(vk.ic);
    assert b[..64] == vk.alphaG1 && b[64..192] == vk.betaG2 && b[192..320] == vk.gammaG2 && b[320..448] == vk.deltaG2;
    ChunksOfFlatten(vk.ic);
  }

  // ---------------------------------------------------------------------
  // From JSON to the verifier and back
  // ---------------------------------------------------------------------

  datatype KeyPoints = KeyPoints(
    alpha: (Coord, Coord), beta: (Coord, Coord, Coord, Coord), gamma: (Coord, Coord, Coord, Coord),
    delta: (Coord, Coord, Coord, Coord), ic: seq<(Coord, Coord)>)

  function PointsOf(vk: VkJson): KeyPoints
    requires Shaped(vk)
  {
    KeyPoints((vk.alpha[0].n, vk.alpha[1].n), G2Point(vk.beta), G2Point(vk.gamma), G2Point(vk.delta),
              seq(|vk.ic|, i requires 0 <= i < |vk.ic| && G1Shaped(vk.ic[i]) => (vk.ic[i][0].n, vk.ic[i][1].n)))
  }

  function G2Point(p: seq<Cell>): (Coord, Coord, Coord, Coord)
    requires G2Shaped(p)
  {
    (p[0].c0, p[0].c1, p[1].c0, p[1].c1)
  }

  function Word(b: Bytes32): Coord {
    PowersNamed();
    BEBound(b);
    BE(b)
  }

  function ReadG1(b: Bytes64): (Coord, Coord) {
    (Word(b[..32]), Word(b[32..]))
  }

  function ReadG2(b: Bytes128): (Coord, Coord, Coord, Coord) {
    (Word(b[32..64]), Word(b[..32]), Word(b[96..]), Word(b[64..96]))
  }

  function ReadKey(vk: VkBytes): KeyPoints {
    KeyPoints(ReadG1(vk.alphaG1), ReadG2(vk.betaG2), ReadG2(vk.gammaG2), ReadG2(vk.deltaG2),
              seq(|vk.ic|, i requires 0 <= i < |vk.ic| => ReadG1(vk.ic[i])))
  }

  lemma ReadG1Of(p: seq<Cell>)
    requires G1Shaped(p)
    ensures ReadG1(G1Of(p)) == (p[0].n, p[1].n)
  {
    var b := G1Of(p);
    assert b[..32] == ToBE(p[0].n, 32) && b[32..] == ToBE(p[1].n, 32);
    WordOf(p[0].n);
    WordOf(p[1].n);
  }

  lemma ReadG2Of(p: seq<Cell>)
    requires G2Shaped(p)
    ensures ReadG2(G2Of(p)) == G2Point(p)
  {
    var b := G2Of(p);
    assert b[..32] == ToBE(p[0].c1, 32) && b[32..64] == ToBE(p[0].c0, 32);
    assert b[64..96] == ToBE(p[1].c1, 32) && b[96..] == ToBE(p[1].c0, 32);
    WordOf(p[0].c0);
    WordOf(p[0].c1);
    WordOf(p[1].c0);
    WordOf(p[1].c1);
  }

  /** Extracting a key, laying it out, parsing it and reading its points gives the JSON's points:
      the pipeline loses and reorders nothing. */
  lemma KeyPipelineLossless(vk: VkJson)
    requires Shaped(vk)
    ensures ParseVk(VkCanonicalBytes(ExtractedKey(vk))) == Some(ExtractedKey(vk))
    ensures ReadKey(ExtractedKey(vk)) == PointsOf(vk)
  {
    CanonicalParses(ExtractedKey(vk));
    ReadG1Of(vk.alpha);
    ReadG2Of(vk.beta);
    ReadG2Of(vk.gamma);
    ReadG2Of(vk.delta);
    forall i | 0 <= i < |vk.ic|
      ensures ReadG1(ExtractedKey(vk).ic[i]) == (vk.ic[i][0].n, vk.ic[i][1].n)
    {
      ReadG1Of(vk.ic[i]);
    }
  }
}
