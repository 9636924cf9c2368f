/** The cryptography the system calls, as unknown functions.

    Nothing is assumed about them beyond their types. In particular no hash is assumed free of
    collisions (none can be): where the system relies on that, the theorem ends "or here is a
    collision". */
module Crypto {
  import opened Wrappers
  import opened Bytes

  /** The modulus the clients call `BN254_P`. It is the base-field modulus of the curve. */
  const BN254_P: nat := 21888242871839275222246405745257275088696311157297823662689037894645226208583

  /** The order of the scalar field, where Poseidon and the circuits compute. */
  const SCALAR_ORDER: nat := 21888242871839275222246405745257275088548364400416034343698204186575808495617

  type Scalar = x: nat | x < SCALAR_ORDER

  type Pubkey = Bytes32

  /** What the pairing library can complain about; `Other` stands for every further code. */
  datatype MosaicError =
    | PairingCheckFailed | VerificationFailed | PublicInputOutOfRange | PublicInputCountMismatch
    | ProofLengthMismatch | VerifyingKeyLengthMismatch | InvalidPointEncoding | PointNotOnCurve | Other

  datatype Primitives = Primitives(
    sha256: Blob -> Bytes32,
    utf8: string -> Blob,
    poseidon: (nat, nat, nat) -> Scalar,
    // verify(key, proof, public inputs)
    groth16: (Blob, Bytes256, Blob) -> Result<(), MosaicError>,
    batch: (Blob, seq<Bytes256>, seq<Blob>) -> Result<(), MosaicError>,
    decompress: Bytes128 -> Result<Bytes256, MosaicError>,
    // program-derived addresses, from the concatenated seeds
    address: Blob -> Pubkey)

  predicate Collision(sha256: Blob -> Bytes32, a: Blob, b: Blob) {
    a != b && sha256(a) == sha256(b)
  }
}
