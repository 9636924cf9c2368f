/** The proof of a claim: what the circuits promise about it, and what its converted form carries. */
module ClaimProof {
  import opened Wrappers
  import opened Bytes
  import opened Crypto
  import opened FieldHalves
  import opened ProofConversion

  /** `snarkjs.groth16.fullProve`: the proof and its public signals, or an exception. */
  type Prover = Claim -> Option<(SnarkjsProof, seq<string>)>

  /** The circuit declares its public signals in the order hash-high, hash-low, commitment. */
  predicate SignalsAre(big: Parser, signals: seq<string>, claim: Claim) {
    && |signals| == 3
    && big(signals[0]) == Some(claim.hi as int) && big(signals[1]) == Some(claim.lo as int)
    && big(signals[2]) == Some(claim.commitment as int)
  }

  predicate FaithfulProver(big: Parser, prover: Prover, claim: Claim) {
    prover(claim).Some? ==> SignalsAre(big, prover(claim).value.1, claim)
  }

  /** The converted proof of a claim carries the halves of its hash and its commitment. */
  lemma ConvertedSignals(c: Primitives, big: Parser, p: SnarkjsProof, signals: seq<string>, hash: Bytes32, commitment: Scalar)
    requires |signals| == 3 && Acceptable(big, p, signals)
    requires big(signals[0]) == Some(Split(hash).0 as int) && big(signals[1]) == Some(Split(hash).1 as int)
    requires big(signals[2]) == Some(commitment as int)
    ensures var inputs := Encoded(c, ReadCoordinates(big, p).value, SignalValues(big, signals)).publicInputs;
            && |inputs| == 3
            && (inputs[0], inputs[1]) == Halves(hash)
            && Encode32(commitment) == Ok(inputs[2])
  {
    SplitEncodesToHalves(hash);
    assert SCALAR_ORDER < TWO_256;
  }
}
