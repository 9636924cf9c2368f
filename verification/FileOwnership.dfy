/** Document ownership from end to end: the bytes uploaded, the claim stored beside them, the proof
    produced in the browser, the record on chain, and the badge the service then shows. */
module FileOwnership {
  import opened Wrappers
  import opened Bytes
  import opened Crypto
  import opened Hex
  import opened FieldHalves
  import opened ProofConversion
  import opened VkLayout
  import opened ClaimProof
  import Seeds
  import V = Verifier

  const DOMAIN_SEPARATOR := "etornie-file-ownership-v1"

  // ---------------------------------------------------------------------
  // Upload: the service checks and stores the browser's claim
  // ---------------------------------------------------------------------

  datatype StorageError = ClaimIncomplete | MalformedFileHash | MalformedCommitment | HashMismatch | ValueTooLong

  /** The width of the columns that hold the two texts. */
  const COLUMN_WIDTH := 64

  datatype Upload = Upload(
    contents: Blob,
    sha256Hex: string,
    cancelled: bool,
    fileHashHex: Option<string>,
    commitmentHex: Option<string>,
    proofPda: Option<Pubkey>,
    verifiedAt: Option<int>)

  /** The checks of the service: no claim, or a complete one whose texts match the pattern and whose hash
      is that of the bytes. */
  predicate ChecksPass(c: Primitives, file: Blob, fileHashHex: Option<string>, commitmentHex: Option<string>) {
    || (fileHashHex.None? && commitmentHex.None?)
    || (fileHashHex.Some? && commitmentHex.Some?
        && IsHex64(fileHashHex.value) && IsHex64(commitmentHex.value)
        && Lower(fileHashHex.value) == ToHex(c.sha256(file)))
  }

  /** The claims that end up in the table: none, or 64 hexadecimal digits for the hash of the bytes and 64
      for the commitment. */
  predicate ClaimAccepted(c: Primitives, file: Blob, fileHashHex: Option<string>, commitmentHex: Option<string>) {
    || (fileHashHex.None? && commitmentHex.None?)
    || (fileHashHex.Some? && commitmentHex.Some?
        && Lower(fileHashHex.value) == ToHex(c.sha256(file))
        && |commitmentHex.value| == 64 && AllHex(commitmentHex.value))
  }

  predicate FitsColumn(s: Option<string>) {
    s.Some? ==> |s.value| <= COLUMN_WIDTH
  }

  /** Text that lower-cases to the hash of the bytes is itself 64 hexadecimal digits. */
  lemma HashTextIsHex(c: Primitives, file: Blob, fileHashHex: Option<string>)
    ensures fileHashHex.Some? && Lower(fileHashHex.value) == ToHex(c.sha256(file)) ==>
              |fileHashHex.value| == 64 && AllHex(fileHashHex.value)
  {
    if fileHashHex.Some? && Lower(fileHashHex.value) == ToHex(c.sha256(file)) {
      forall i | 0 <= i < |fileHashHex.value|
        ensures IsHexChar(fileHashHex.value[i])
      {
        assert IsHexChar(Lower(fileHashHex.value)[i]);
      }
    }
  }

  /** The pattern is wider than the column: what passes the checks is stored, except exactly a commitment
      with a final newline, which the insert refuses. */
  lemma NewlineFailsAtInsert(c: Primitives, file: Blob, fileHashHex: Option<string>, commitmentHex: Option<string>, digits: Bytes32)
    ensures ClaimAccepted(c, file, fileHashHex, commitmentHex) <==>
              ChecksPass(c, file, fileHashHex, commitmentHex) && FitsColumn(commitmentHex)
    ensures ChecksPass(c, file, fileHashHex, commitmentHex) && !ClaimAccepted(c, file, fileHashHex, commitmentHex) ==>
              commitmentHex.Some? && commitmentHex.value == commitmentHex.value[..64] + "\n"
    ensures var late := Some(ToHex(digits) + "\n");
            ChecksPass(c, file, Some(ToHex(c.sha256(file))), late) && !ClaimAccepted(c, file, Some(ToHex(c.sha256(file))), late)
  {
    HashTextIsHex(c, file, fileHashHex);
    assert (ToHex(digits) + "\n")[..64] == ToHex(digits);
  }

  function LowerOption(s: Option<string>): Option<string> {
    if s.None? then None else Some(Lower(s.value))
  }

  function NewUpload(c: Primitives, file: Blob, fileHashHex: Option<string>, commitmentHex: Option<string>): Upload {
    Upload(file, ToHex(c.sha256(file)), false, LowerOption(fileHashHex), LowerOption(commitmentHex), None, None)
  }

  datatype AttachError = Cancelled | NoCommitment | AlreadyAttached | NotFound | NotInitialized | FileHashDiffers | CommitmentDiffers

  /** The on-chain record says what the row says. */
  predicate RecordMatches(ledger: V.Ledger, pda: Pubkey, u: Upload) {
    && u.fileHashHex.Some? && u.commitmentHex.Some?
    && pda in ledger && ledger[pda].OwnershipRecord? && ledger[pda].initialized
    && ToHex(ledger[pda].fileHash) == Lower(u.fileHashHex.value)
    && ToHex(ledger[pda].commitment) == Lower(u.commitmentHex.value)
  }

  predicate CanAttach(ledger: V.Ledger, pda: Pubkey, u: Upload) {
    !u.cancelled && u.verifiedAt.None? && RecordMatches(ledger, pda, u)
  }

  function Attached(ledger: V.Ledger, pda: Pubkey, u: Upload): Upload
    requires CanAttach(ledger, pda, u)
  {
    u.(proofPda := Some(pda), verifiedAt := Some(ledger[pda].verifiedAt))
  }

  class UploadService {
    var rows: seq<Upload>

    constructor ()
      ensures rows == []
    {
      rows := [];
    }

    method StoreUpload(c: Primitives, file: Blob, fileHashHex: Option<string>, commitmentHex: Option<string>)
      returns (r: Result<(), StorageError>)
      modifies this
      ensures r.Ok? <==> ClaimAccepted(c, file, fileHashHex, commitmentHex)
      ensures r == Err(ClaimIncomplete) <==> fileHashHex.None? != commitmentHex.None?
      ensures r == Err(ValueTooLong) <==>
                ChecksPass(c, file, fileHashHex, commitmentHex) && commitmentHex.Some? && |commitmentHex.value| == 65
      ensures r == Err(HashMismatch) <==>
                fileHashHex.Some? && commitmentHex.Some? && IsHex64(fileHashHex.value) && IsHex64(commitmentHex.value)
                && Lower(fileHashHex.value) != ToHex(c.sha256(file))
      ensures rows == if r.Ok? then old(rows) + [NewUpload(c, file, fileHashHex, commitmentHex)] else old(rows)
    {
      if fileHashHex.None? != commitmentHex.None? {
        return Err(ClaimIncomplete);
      }
      if fileHashHex.Some? && !IsHex64(fileHashHex.value) {
        return Err(MalformedFileHash);
      }
      if commitmentHex.Some? && !IsHex64(commitmentHex.value) {
        return Err(MalformedCommitment);
      }
      var serverSha256 := WriteHex(c.sha256(file));
      if fileHashHex.Some? && Lower(fileHashHex.value) != serverSha256 {
        return Err(HashMismatch);
      }
      HashTextIsHex(c, file, fileHashHex);
      var row := Upload(file, serverSha256, false, LowerOption(fileHashHex), LowerOption(commitmentHex), None, None);
      if !FitsColumn(row.fileHashHex) || !FitsColumn(row.commitmentHex) {
        return Err(ValueTooLong);
      }
      rows := rows + [row];
      return Ok(());
    }

    method CancelUpload(i: nat)
      requires i < |rows|
      modifies this
      ensures rows == old(rows)[i := old(rows)[i].(cancelled := true)]
    {
      if rows[i].cancelled {
        return;
      }
      rows := rows[i := rows[i].(cancelled := true)];
    }

    method AttachOwnershipProof(ledger: V.Ledger, i: nat, pda: Pubkey) returns (r: Result<(), AttachError>)
      requires i < |rows|
      modifies this
      ensures r.Ok? <==> CanAttach(ledger, pda, old(rows)[i])
      ensures rows == if r.Ok? then old(rows)[i := Attached(ledger, pda, old(rows)[i])] else old(rows)
    {
      var upload := rows[i];
      if upload.cancelled {
        return Err(Cancelled);
      }
      if upload.fileHashHex.None? || upload.commitmentHex.None? {
        return Err(NoCommitment);
      }
      if upload.verifiedAt.Some? {
        return Err(AlreadyAttached);
      }
      if pda !in ledger || !ledger[pda].OwnershipRecord? {
        return Err(NotFound);
      }
      var record := ledger[pda];
      if !record.initialized {
        return Err(NotInitialized);
      }
      var fileHashHex := WriteHex(record.fileHash);
      if fileHashHex != Lower(upload.fileHashHex.value) {
        return Err(FileHashDiffers);
      }
      var commitmentHex := WriteHex(record.commitment);
      if commitmentHex != Lower(upload.commitmentHex.value) {
        return Err(CommitmentDiffers);
      }
      rows := rows[i := upload.(proofPda := Some(pda), verifiedAt := Some(record.verifiedAt))];
      return Ok(());
    }
  }

  // ---------------------------------------------------------------------
  // Proving
  // ---------------------------------------------------------------------

  datatype ProveError = BadHash | NotAHash | WalletNotEd25519 | CommitmentMismatch | ProverFailed | NotConvertible

  /** What the browser posts to have the verify transaction built. */
  datatype Request = Request(user: Pubkey, proof: V.Proof, publicInputs: seq<Bytes32>, fileHash: Bytes32)

  /** Step 2: derive the claim again and hold it to the commitment stored. */
  function RederivedClaim(c: Primitives, w: Wallet, hash: Bytes32, expectedCommitmentHex: string): Result<Claim, ProveError> {
    match ClaimFor(c, DOMAIN_SEPARATOR, w, hash)
    case Err(_) => Err(WalletNotEd25519)
    case Ok(claim) =>
      match BigintToHex32(claim.commitment)
      case Err(_) => Err(CommitmentMismatch)
      case Ok(hex) => if Lower(hex) == Lower(expectedCommitmentHex) then Ok(claim) else Err(CommitmentMismatch)
  }

  /** Step 3: prove the claim and convert the proof. */
  function ProvedClaim(c: Primitives, big: Parser, prover: Prover, claim: Claim): Result<OnChainProof, ProveError> {
    match prover(claim)
    case None => Err(ProverFailed)
    case Some((proof, signals)) =>
      match Convert(c, big, proof, signals)
      case None => Err(NotConvertible)
      case Some(o) => Ok(o)
  }

  function RequestOf(w: Wallet, o: OnChainProof, hash: Bytes32): Request {
    Request(w.key, V.Proof(o.proofA, o.proofB, o.proofC), o.publicInputs, hash)
  }

  function Prove(c: Primitives, big: Parser, prover: Prover, w: Wallet, fileHashHex: string, expectedCommitmentHex: string)
    : Result<Request, ProveError>
  {
    match HexToBytes(fileHashHex)
    case Err(_) => Err(BadHash)
    case Ok(hash) =>
      if |hash| != 32 then Err(NotAHash)
      else
        match RederivedClaim(c, w, hash, expectedCommitmentHex)
        case Err(e) => Err(e)
        case Ok(claim) =>
          match ProvedClaim(c, big, prover, claim)
          case Err(e) => Err(e)
          case Ok(o) => Ok(RequestOf(w, o, hash))
  }

  method Rederive(c: Primitives, w: Wallet, hash: Bytes32, expectedCommitmentHex: string) returns (r: Result<Claim, ProveError>)
    ensures r == RederivedClaim(c, w, hash, expectedCommitmentHex)
  {
    var halves := SplitHash(hash);
    var (hi, lo) := halves.value;
    var secret := DeriveDeterministicSecret(c, DOMAIN_SEPARATOR, w, hash);
    if secret.Err? {
      return Err(WalletNotEd25519);
    }
    var commitment := c.poseidon(secret.value, hi, lo);
    var commitmentHex := BigintToHex32(commitment);
    if commitmentHex.Err? || Lower(commitmentHex.value) != Lower(expectedCommitmentHex) {
      return Err(CommitmentMismatch);
    }
    return Ok(Claim(hash, hi, lo, secret.value, commitment));
  }

  method ProveDocumentOwnership(c: Primitives, big: Parser, prover: Prover, w: Wallet, fileHashHex: string, expectedCommitmentHex: string)
    returns (r: Result<Request, ProveError>)
    ensures r == Prove(c, big, prover, w, fileHashHex, expectedCommitmentHex)
  {
    var fileHash := ReadHex(fileHashHex);
    if fileHash.Err? {
      return Err(BadHash);
    }
    if |fileHash.value| != 32 {
      return Err(NotAHash);
    }
    var hash: Bytes32 := fileHash.value;
    var claim := Rederive(c, w, hash, expectedCommitmentHex);
    if claim.Err? {
      return Err(claim.error);
    }
    var proved := prover(claim.value);
    if proved.None? {
      return Err(ProverFailed);
    }
    var converted := ConvertSnarkjsProof(c, big, proved.value.0, proved.value.1);
    if converted.Err? {
      return Err(NotConvertible);
    }
    var o := converted.value;
    return Ok(Request(w.key, V.Proof(o.proofA, o.proofB, o.proofC), o.publicInputs, hash));
  }

  // ---------------------------------------------------------------------
  // The instruction on the wire
  // ---------------------------------------------------------------------

  type Discriminator = b: Blob | |b| == 8 witness Zeros(8)

  /** The backend checks every length and lays the arguments out back to back. */
  function InstructionData(tag: Discriminator, r: Request): Option<Blob> {
    if |r.publicInputs| != 3 then None
    else Some(tag + r.proof.a + r.proof.b + r.proof.c + Flatten(r.publicInputs) + r.fileHash)
  }

  /** What the program's argument decoder makes of the data. */
  function DecodeInstruction(tag: Discriminator, data: Blob): Option<(V.Proof, V.ThreeInputs, Bytes32)> {
    if |data| != 392 || data[..8] != tag then None
    else
      var inputs: seq<Bytes32> := [data[264..296], data[296..328], data[328..360]];
      Some((V.Proof(data[8..72], data[72..200], data[200..264]), inputs, data[360..]))
  }

  lemma InstructionRoundTrip(tag: Discriminator, r: Request)
    requires |r.publicInputs| == 3
    ensures InstructionData(tag, r).Some?
    ensures DecodeInstruction(tag, InstructionData(tag, r).value) == Some((r.proof, r.publicInputs, r.fileHash))
  {
    var data := InstructionData(tag, r).value;
    V.FlattenThree(r.publicInputs[0], r.publicInputs[1], r.publicInputs[2]);
    assert r.publicInputs == [r.publicInputs[0], r.publicInputs[1], r.publicInputs[2]];
    assert |data| == 392;
    assert data[..8] == tag;
    assert data[8..72] == r.proof.a;
    assert data[72..200] == r.proof.b;
    assert data[200..264] == r.proof.c;
    assert data[264..296] == r.publicInputs[0];
    assert data[296..328] == r.publicInputs[1];
    assert data[328..360] == r.publicInputs[2];
    assert data[360..] == r.fileHash;
  }

  /** The transaction that results when the data reaches the program as it was built. */
  function VerifyCall(r: Request, feePayer: Pubkey, signers: set<Pubkey>): V.Call
    requires |r.publicInputs| == 3
  {
    V.VerifyOwnership(r.user, feePayer, signers, r.proof, r.publicInputs, r.fileHash)
  }

  // ---------------------------------------------------------------------
  // End to end
  // ---------------------------------------------------------------------

  lemma {:induction false} LowerIsStable(s: string)
    ensures Lower(Lower(s)) == Lower(s)
  {
    forall i | 0 <= i < |s|
      ensures Lower(Lower(s))[i] == Lower(s)[i]
    {
      assert LowerChar(LowerChar(s[i])) == LowerChar(s[i]);
    }
  }

  /** What the service keeps of a claim it accepts is the hash of the bytes and the commitment in lower
      case; and the first step of proving reads that very hash back. */
  lemma StoredClaim(c: Primitives, file: Blob, fileHashHex: string, commitmentHex: string)
    requires ClaimAccepted(c, file, Some(fileHashHex), Some(commitmentHex))
    ensures HexToBytes(Lower(fileHashHex)) == Ok(c.sha256(file))
    ensures Lower(Lower(fileHashHex)) == ToHex(c.sha256(file)) && Lower(Lower(commitmentHex)) == Lower(commitmentHex)
  {
    HexRoundTrip(c.sha256(file));
    LowerIsStable(commitmentHex);
    LowerIsStable(fileHashHex);
  }

  /** Proving from the row is deriving the claim again for the hash of the uploaded bytes, and proving
      that. */
  lemma ProveFromRow(c: Primitives, big: Parser, prover: Prover, w: Wallet, file: Blob, fileHashHex: string, commitmentHex: string)
    requires ClaimAccepted(c, file, Some(fileHashHex), Some(commitmentHex))
    ensures var claim := RederivedClaim(c, w, c.sha256(file), Lower(commitmentHex));
            Prove(c, big, prover, w, Lower(fileHashHex), Lower(commitmentHex))
            == if claim.Err? then Err(claim.error)
               else
                 var o := ProvedClaim(c, big, prover, claim.value);
                 if o.Err? then Err(o.error) else Ok(RequestOf(w, o.value, c.sha256(file)))
  {
    StoredClaim(c, file, fileHashHex, commitmentHex);
  }

  /** A claim that agrees with the row, once proved, has public inputs that pass the program's check on
      the halves of the hash and a commitment that reads as the row's. */
  lemma ProvedInputs(c: Primitives, big: Parser, prover: Prover, w: Wallet, hash: Bytes32, commitmentHex: string, claim: Claim, o: OnChainProof)
    requires RederivedClaim(c, w, hash, commitmentHex) == Ok(claim)
    requires FaithfulProver(big, prover, claim) && ProvedClaim(c, big, prover, claim) == Ok(o)
    ensures |o.publicInputs| == 3
    ensures (o.publicInputs[0], o.publicInputs[1]) == Halves(hash)
    ensures ToHex(o.publicInputs[2]) == Lower(commitmentHex)
  {
    var (proof, signals) := prover(claim).value;
    ConvertedSignals(c, big, proof, signals, hash, claim.commitment);
    BigintToHex32Agrees(claim.commitment);
  }

  /** The transaction built for a proved claim that agrees with the row is never refused for its halves;
      and if it succeeds, the record it leaves is the one the row can be matched with. */
  lemma ProvedClaimRecorded(d: V.Deployment, big: Parser, prover: Prover, w: Wallet, file: Blob, fileHashHex: string, commitmentHex: string,
                            claim: Claim, o: OnChainProof, s: V.State, feePayer: Pubkey, signers: set<Pubkey>)
    requires ClaimAccepted(d.crypto, file, Some(fileHashHex), Some(commitmentHex))
    requires RederivedClaim(d.crypto, w, d.crypto.sha256(file), Lower(commitmentHex)) == Ok(claim)
    requires FaithfulProver(big, prover, claim) && ProvedClaim(d.crypto, big, prover, claim) == Ok(o)
    ensures |o.publicInputs| == 3
    ensures var call := VerifyCall(RequestOf(w, o, d.crypto.sha256(file)), feePayer, signers);
            && V.Stated(d, call)
            && (V.Succeeds(d, s, V.Submit(call)) ==>
                  var t := V.Next(d, s, V.Submit(call));
                  && t.ledger[V.SlotOf(d, call)] == V.OwnershipRecord(w.key, d.crypto.sha256(file), o.publicInputs[2], s.clock, true)
                  && RecordMatches(t.ledger, V.SlotOf(d, call), NewUpload(d.crypto, file, Some(fileHashHex), Some(commitmentHex))))
  {
    ProvedInputs(d.crypto, big, prover, w, d.crypto.sha256(file), Lower(commitmentHex), claim, o);
    LowerIsStable(commitmentHex);
    LowerIsStable(fileHashHex);
  }

  /** End to end, for any bytes stored with a claim: whatever request proving from the row gives, its
      transaction passes the program's check on the halves; and if it succeeds, the record has the
      SHA-256 of the bytes uploaded and a commitment that reads as the row's. */
  lemma OwnershipEndToEnd(d: V.Deployment, big: Parser, prover: Prover, w: Wallet, file: Blob, fileHashHex: string, commitmentHex: string,
                          r: Request, s: V.State, feePayer: Pubkey, signers: set<Pubkey>)
    requires ClaimAccepted(d.crypto, file, Some(fileHashHex), Some(commitmentHex))
    requires forall claim :: FaithfulProver(big, prover, claim)
    requires Prove(d.crypto, big, prover, w, Lower(fileHashHex), Lower(commitmentHex)) == Ok(r)
    ensures |r.publicInputs| == 3
    ensures var call := VerifyCall(r, feePayer, signers);
            && V.Stated(d, call)
            && (V.Succeeds(d, s, V.Submit(call)) ==>
                  var t := V.Next(d, s, V.Submit(call));
                  && t.ledger[V.SlotOf(d, call)] == V.OwnershipRecord(w.key, d.crypto.sha256(file), r.publicInputs[2], s.clock, true)
                  && RecordMatches(t.ledger, V.SlotOf(d, call), NewUpload(d.crypto, file, Some(fileHashHex), Some(commitmentHex))))
  {
    ProveFromRow(d.crypto, big, prover, w, file, fileHashHex, commitmentHex);
    var claim := RederivedClaim(d.crypto, w, d.crypto.sha256(file), Lower(commitmentHex)).value;
    assert FaithfulProver(big, prover, claim);
    var o := ProvedClaim(d.crypto, big, prover, claim).value;
    ProvedClaimRecorded(d, big, prover, w, file, fileHashHex, commitmentHex, claim, o, s, feePayer, signers);
  }

  /** A claim agrees with a stored commitment exactly when that is the wallet's own commitment to the
      hash: who else asks gets the mismatch. */
  lemma RederivedIff(c: Primitives, w: Wallet, hash: Bytes32, commitmentHex: string)
    ensures var claim := ClaimFor(c, DOMAIN_SEPARATOR, w, hash);
            && (RederivedClaim(c, w, hash, commitmentHex).Ok?
                <==> claim.Ok? && Lower(commitmentHex) == ToHex(ToBE(claim.value.commitment, 32)))
            && (RederivedClaim(c, w, hash, commitmentHex) == Err(CommitmentMismatch)
                <==> claim.Ok? && Lower(commitmentHex) != ToHex(ToBE(claim.value.commitment, 32)))
  {
    var claim := ClaimFor(c, DOMAIN_SEPARATOR, w, hash);
    if claim.Ok? {
      assert SCALAR_ORDER < TWO_256;
      BigintToHex32Agrees(claim.value.commitment);
    }
  }

  /** The honest run: the claim the browser prepares can always be written down, is stored, and the same
      wallet proves it later from the row whenever the prover delivers. */
  lemma HonestRun(c: Primitives, big: Parser, prover: Prover, w: Wallet, file: Blob, claim: Claim, o: OnChainProof)
    requires ClaimFor(c, DOMAIN_SEPARATOR, w, c.sha256(file)) == Ok(claim)
    requires ProvedClaim(c, big, prover, claim) == Ok(o)
    ensures var hashHex, commitmentHex := ToHex(claim.hash), BigintToHex32(claim.commitment);
            && commitmentHex.Ok?
            && ClaimAccepted(c, file, Some(hashHex), Some(commitmentHex.value))
            && Prove(c, big, prover, w, Lower(hashHex), Lower(commitmentHex.value)) == Ok(RequestOf(w, o, c.sha256(file)))
  {
    assert SCALAR_ORDER < TWO_256;
    BigintToHex32Agrees(claim.commitment);
    var commitmentHex := BigintToHex32(claim.commitment).value;
    LowerIsStable(commitmentHex);
    ProveFromRow(c, big, prover, w, file, ToHex(claim.hash), commitmentHex);
  }

  /** Joined in the order of the instruction. */
  function Joined(x: Blob, y: Blob, z: Blob): Blob {
    x + y + z
  }

  /** What is posted is the converted proof, point for point: the transaction built from it is genuine
      exactly when payer and wallet sign and the pairing accepts the converter's A, B and C over its
      three inputs. */
  lemma PostedProofGenuineIff(d: V.Deployment, big: Parser, prover: Prover, w: Wallet, fileHashHex: string, commitmentHex: string,
                              hash: Bytes32, claim: Claim, proof: SnarkjsProof, signals: seq<string>, o: OnChainProof,
                              feePayer: Pubkey, signers: set<Pubkey>)
    requires HexToBytes(fileHashHex) == Ok(hash) && RederivedClaim(d.crypto, w, hash, commitmentHex) == Ok(claim)
    requires prover(claim) == Some((proof, signals)) && SignalsAre(big, signals, claim)
    requires Convert(d.crypto, big, proof, signals) == Some(o)
    ensures Prove(d.crypto, big, prover, w, fileHashHex, commitmentHex).Ok? && |o.publicInputs| == 3
    ensures var r := Prove(d.crypto, big, prover, w, fileHashHex, commitmentHex).value;
            && r.user == w.key && r.fileHash == hash && r.publicInputs == o.publicInputs
            && (V.Genuine(d, VerifyCall(r, feePayer, signers)) <==>
                  && feePayer in signers && w.key in signers
                  && d.crypto.groth16(VkCanonicalBytes(d.ownership), o.proofA + o.proofB + o.proofC,
                                      Joined(o.publicInputs[0], o.publicInputs[1], o.publicInputs[2])).Ok?)
  {
    ConvertedSignals(d.crypto, big, proof, signals, hash, claim.commitment);
    var x, y, z := o.publicInputs[0], o.publicInputs[1], o.publicInputs[2];
    V.FlattenThree(x, y, z);
    assert o.publicInputs == [x, y, z];
  }

  /** The honest run ends on chain: whenever the prover delivers, the pairing accepts the converted proof,
      payer and wallet sign and the slot is vacant, the record is the wallet's, of the uploaded bytes and
      of the number its commitment is. */
  lemma HonestRunRecorded(d: V.Deployment, big: Parser, prover: Prover, w: Wallet, file: Blob,
                          claim: Claim, proof: SnarkjsProof, signals: seq<string>, o: OnChainProof,
                          s: V.State, feePayer: Pubkey, signers: set<Pubkey>)
    requires ClaimFor(d.crypto, DOMAIN_SEPARATOR, w, d.crypto.sha256(file)) == Ok(claim)
    requires prover(claim) == Some((proof, signals)) && SignalsAre(big, signals, claim)
    requires Convert(d.crypto, big, proof, signals) == Some(o) && |o.publicInputs| == 3
    requires d.crypto.groth16(VkCanonicalBytes(d.ownership), o.proofA + o.proofB + o.proofC,
                              Joined(o.publicInputs[0], o.publicInputs[1], o.publicInputs[2])).Ok?
    requires feePayer in signers && w.key in signers
    requires V.Vacant(s.ledger, d.crypto.address(Seeds.FILE_OWNERSHIP + w.key + d.crypto.sha256(file)), (a: V.Account) => a.OwnershipRecord?)
    ensures BigintToHex32(claim.commitment).Ok?
    ensures var r := Prove(d.crypto, big, prover, w, ToHex(d.crypto.sha256(file)), BigintToHex32(claim.commitment).value);
            && r.Ok? && |r.value.publicInputs| == 3
            && var t := V.Next(d, s, V.Submit(VerifyCall(r.value, feePayer, signers)));
               var key := d.crypto.address(Seeds.FILE_OWNERSHIP + w.key + d.crypto.sha256(file));
            && t.ledger == s.ledger[key := V.OwnershipRecord(w.key, d.crypto.sha256(file), o.publicInputs[2], s.clock, true)]
            && BE(o.publicInputs[2]) == claim.commitment
  {
    var hash := d.crypto.sha256(file);
    assert SCALAR_ORDER < TWO_256;
    BigintToHex32Agrees(claim.commitment);
    var hex := BigintToHex32(claim.commitment).value;
    HexRoundTrip(hash);
    assert RederivedClaim(d.crypto, w, hash, hex) == Ok(claim);
    PostedProofGenuineIff(d, big, prover, w, ToHex(hash), hex, hash, claim, proof, signals, o, feePayer, signers);
    CommitmentInput(d.crypto, big, proof, signals, hash, claim, o);
    RecordedCall(d, s, Prove(d.crypto, big, prover, w, ToHex(hash), hex).value, feePayer, signers);
  }

  lemma CommitmentInput(c: Primitives, big: Parser, proof: SnarkjsProof, signals: seq<string>, hash: Bytes32, claim: Claim, o: OnChainProof)
    requires SignalsAre(big, signals, claim) && Convert(c, big, proof, signals) == Some(o)
    ensures |o.publicInputs| == 3 && BE(o.publicInputs[2]) == claim.commitment
  {
    ConversionReadsTexts(c, big, proof, signals, o);
  }

  /** A genuine ownership call on a vacant slot leaves its own record, and nothing else. */
  lemma RecordedCall(d: V.Deployment, s: V.State, r: Request, feePayer: Pubkey, signers: set<Pubkey>)
    requires |r.publicInputs| == 3 && V.Genuine(d, VerifyCall(r, feePayer, signers))
    requires V.Vacant(s.ledger, d.crypto.address(Seeds.FILE_OWNERSHIP + r.user + r.fileHash), (a: V.Account) => a.OwnershipRecord?)
    ensures V.Next(d, s, V.Submit(VerifyCall(r, feePayer, signers))).ledger
            == s.ledger[d.crypto.address(Seeds.FILE_OWNERSHIP + r.user + r.fileHash)
                        := V.OwnershipRecord(r.user, r.fileHash, r.publicInputs[2], s.clock, true)]
  {
  }

  // ---------------------------------------------------------------------
  // The badge, over whole runs of the service and the chain
  // ---------------------------------------------------------------------

  datatype WorldStep =
    | Store(file: Blob, fileHashHex: Option<string>, commitmentHex: Option<string>)
    | Cancel(row: nat)
    | Attach(row: nat, pda: Pubkey)
    | Chain(step: V.Step)

  /** The rows of the service, and everything submitted to the chain so far. */
  datatype World = World(rows: seq<Upload>, chain: seq<V.Step>)

  function ChainState(d: V.Deployment, start: V.State, w: World): V.State {
    V.Run(d, start, w.chain)
  }

  function NextWorld(d: V.Deployment, start: V.State, w: World, step: WorldStep): World {
    match step
    case Store(file, fh, cm) => if ClaimAccepted(d.crypto, file, fh, cm) then w.(rows := w.rows + [NewUpload(d.crypto, file, fh, cm)]) else w
    case Cancel(i) => if i < |w.rows| then w.(rows := w.rows[i := w.rows[i].(cancelled := true)]) else w
    case Attach(i, pda) =>
      var ledger := ChainState(d, start, w).ledger;
      if i < |w.rows| && CanAttach(ledger, pda, w.rows[i]) then w.(rows := w.rows[i := Attached(ledger, pda, w.rows[i])]) else w
    case Chain(s) => w.(chain := w.chain + [s])
  }

  function RunWorld(d: V.Deployment, start: V.State, steps: seq<WorldStep>): World
    decreases |steps|
  {
    if steps == [] then World([], []) else NextWorld(d, start, RunWorld(d, start, steps[..|steps| - 1]), steps[|steps| - 1])
  }

  ghost predicate RowOk(d: V.Deployment, ledger: V.Ledger, u: Upload) {
    && u.sha256Hex == ToHex(d.crypto.sha256(u.contents))
    && (u.fileHashHex.Some? ==> u.fileHashHex.value == u.sha256Hex)
    && (u.commitmentHex.Some? ==> Lower(u.commitmentHex.value) == u.commitmentHex.value)
    && (u.verifiedAt.Some? ==> u.proofPda.Some? && RecordMatches(ledger, u.proofPda.value, u))
  }

  lemma {:induction false} RowsOk(d: V.Deployment, start: V.State, steps: seq<WorldStep>, i: nat)
    requires i < |RunWorld(d, start, steps).rows|
    ensures RowOk(d, ChainState(d, start, RunWorld(d, start, steps)).ledger, RunWorld(d, start, steps).rows[i])
    decreases |steps|
  {
    if steps != [] {
      var n := |steps| - 1;
      var before, after := RunWorld(d, start, steps[..n]), RunWorld(d, start, steps);
      if i < |before.rows| {
        RowsOk(d, start, steps[..n], i);
        var u := before.rows[i];
        if steps[n].Chain? && u.verifiedAt.Some? {
          V.RecordsAreFinal(d, ChainState(d, start, before), [steps[n].step], u.proofPda.value);
          V.RunSplit(d, start, before.chain, [steps[n].step]);
        }
      }
    }
  }

  /** Every badge is earned: whenever a row shows as verified, the pairing has accepted a proof whose
      public inputs are the halves of the hash of the bytes uploaded and the very commitment stored
      with them at upload time. */
  lemma BadgeIsEarned(d: V.Deployment, start: V.State, steps: seq<WorldStep>, i: nat)
    returns (proof: Bytes256, commitment: Bytes32)
    requires start.ledger == map[]
    requires i < |RunWorld(d, start, steps).rows| && RunWorld(d, start, steps).rows[i].verifiedAt.Some?
    ensures var u := RunWorld(d, start, steps).rows[i];
            var hash := d.crypto.sha256(u.contents);
            && u.commitmentHex == Some(ToHex(commitment))
            && d.crypto.groth16(VkCanonicalBytes(d.ownership), proof, Halves(hash).0 + Halves(hash).1 + commitment).Ok?
  {
    var w := RunWorld(d, start, steps);
    RowsOk(d, start, steps, i);
    var u := w.rows[i];
    var pda := u.proofPda.value;
    var a := ChainState(d, start, w).ledger[pda];
    proof := V.ClaimRecordVouched(d, start, w.chain, pda);
    commitment := a.commitment;
    ToHexInjective(a.fileHash, d.crypto.sha256(u.contents));
  }

  /** What a row says is never rewritten: neither the upload itself nor a badge once earned, and a
      cancelled row changes no more. */
  lemma {:induction false} RowsSettle(d: V.Deployment, start: V.State, steps: seq<WorldStep>, more: seq<WorldStep>, i: nat)
    requires i < |RunWorld(d, start, steps).rows|
    ensures i < |RunWorld(d, start, steps + more).rows|
    ensures var u, u' := RunWorld(d, start, steps).rows[i], RunWorld(d, start, steps + more).rows[i];
            && (u'.contents, u'.sha256Hex, u'.fileHashHex, u'.commitmentHex) == (u.contents, u.sha256Hex, u.fileHashHex, u.commitmentHex)
            && (u.verifiedAt.Some? ==> (u'.proofPda, u'.verifiedAt) == (u.proofPda, u.verifiedAt))
            && (u.cancelled ==> u' == u)
    decreases |more|
  {
    if more == [] {
      assert steps + more == steps;
    } else {
      var n := |more| - 1;
      RowsSettle(d, start, steps, more[..n], i);
      assert (steps + more)[..|steps + more| - 1] == steps + more[..n];
    }
  }

  // ---------------------------------------------------------------------
  // Whose record earns the badge
  // ---------------------------------------------------------------------

  /** Attaching does not look at the record's owner. */
  lemma AttachIgnoresOwner(ledger: V.Ledger, pda: Pubkey, u: Upload, other: Pubkey)
    requires pda in ledger && ledger[pda].OwnershipRecord?
    ensures CanAttach(ledger[pda := ledger[pda].(owner := other)], pda, u) <==> CanAttach(ledger, pda, u)
  {
  }

  /** Nor does the proof: once it is public, any wallet that signs for it gets a record of its own, and
      that record earns the same row its badge. */
  lemma StrangersRecordAttaches(d: V.Deployment, s: V.State, call: V.Call, stranger: Pubkey, u: Upload)
    requires call.VerifyOwnership? && V.Genuine(d, call)
    requires V.SlotFree(d, s.ledger, V.WithUser(call, stranger))
    requires !u.cancelled && u.verifiedAt.None?
    requires u.fileHashHex.Some? && Lower(u.fileHashHex.value) == ToHex(call.digest)
    requires u.commitmentHex.Some? && Lower(u.commitmentHex.value) == ToHex(call.inputs[2])
    ensures var again := V.WithUser(call, stranger);
            var t := V.Next(d, s, V.Submit(again));
            && CanAttach(t.ledger, V.SlotOf(d, again), u)
            && t.ledger[V.SlotOf(d, again)].owner == stranger
  {
    V.ProofServesAnyUser(d, call, stranger);
  }

  /** Comparing the owner with the uploader's wallet would make the badge the uploader's: that wallet has
      then signed the call that proved this very hash and commitment. */
  lemma OwnerCheckWouldBind(d: V.Deployment, start: V.State, steps: seq<WorldStep>, i: nat, wallet: Pubkey) returns (k: nat)
    requires start.ledger == map[]
    requires i < |RunWorld(d, start, steps).rows| && RunWorld(d, start, steps).rows[i].verifiedAt.Some?
    requires var w := RunWorld(d, start, steps);
             var pda := w.rows[i].proofPda;
             pda.Some? && pda.value in ChainState(d, start, w).ledger
             && var a := ChainState(d, start, w).ledger[pda.value]; a.OwnershipRecord? && a.owner == wallet
    ensures var w := RunWorld(d, start, steps);
            && k < |w.chain| && w.chain[k].Submit? && w.chain[k].call.VerifyOwnership?
            && w.chain[k].call.user == wallet && wallet in w.chain[k].call.signers
            && w.chain[k].call.digest == d.crypto.sha256(w.rows[i].contents)
            && w.rows[i].commitmentHex == Some(ToHex(w.chain[k].call.inputs[2]))
  {
    var w := RunWorld(d, start, steps);
    RowsOk(d, start, steps, i);
    var pda := w.rows[i].proofPda.value;
    k := V.Provenance(d, start, w.chain, pda);
    ToHexInjective(ChainState(d, start, w).ledger[pda].fileHash, d.crypto.sha256(w.rows[i].contents));
  }

  // ---------------------------------------------------------------------
  // The honest run, from the upload to the badge
  // ---------------------------------------------------------------------

  /** The three steps of the honest run: upload with the claim, proof on chain, attachment. */
  function HonestSteps(file: Blob, fileHashHex: string, commitmentHex: string, call: V.Step, key: Pubkey): seq<WorldStep> {
    [Store(file, Some(fileHashHex), Some(commitmentHex)), Chain(call), Attach(0, key)]
  }

  lemma OneCall(d: V.Deployment, start: V.State, call: V.Step)
    ensures V.Run(d, start, [call]) == V.Next(d, start, call)
  {
    assert [call][..0] == [];
    assert V.Run(d, start, [call][..0]) == start;
  }

  lemma ThreeSteps(d: V.Deployment, start: V.State, first: WorldStep, second: WorldStep, third: WorldStep, w1: World, w2: World)
    requires NextWorld(d, start, World([], []), first) == w1 && NextWorld(d, start, w1, second) == w2
    ensures RunWorld(d, start, [first, second, third]) == NextWorld(d, start, w2, third)
  {
    var steps := [first, second, third];
    assert steps[..2][..1] == steps[..1] && steps[..1][..0] == [];
    assert RunWorld(d, start, steps[..1]) == w1;
    assert RunWorld(d, start, steps[..2]) == w2;
  }

  lemma StoredRow(d: V.Deployment, start: V.State, file: Blob, commitment: Bytes32)
    ensures var hex := ToHex(d.crypto.sha256(file));
            NextWorld(d, start, World([], []), Store(file, Some(hex), Some(ToHex(commitment))))
            == World([Upload(file, hex, false, Some(hex), Some(ToHex(commitment)), None, None)], [])
  {
  }

  /** The row of the upload is matched by a record that carries its commitment. */
  lemma AttachedRow(d: V.Deployment, start: V.State, file: Blob, commitment: Bytes32, user: Pubkey, call: V.Step, key: Pubkey)
    requires V.Next(d, start, call).ledger == start.ledger[key := V.OwnershipRecord(user, d.crypto.sha256(file), commitment, start.clock, true)]
    ensures var hex := ToHex(d.crypto.sha256(file));
            var row := Upload(file, hex, false, Some(hex), Some(ToHex(commitment)), None, None);
            NextWorld(d, start, World([row], [call]), Attach(0, key)).rows == [row.(proofPda := Some(key), verifiedAt := Some(start.clock))]
  {
    OneCall(d, start, call);
  }

  lemma HonestStepsRun(d: V.Deployment, start: V.State, file: Blob, commitment: Bytes32, user: Pubkey, call: V.Step, key: Pubkey)
    requires V.Next(d, start, call).ledger == start.ledger[key := V.OwnershipRecord(user, d.crypto.sha256(file), commitment, start.clock, true)]
    ensures var hex := ToHex(d.crypto.sha256(file));
            RunWorld(d, start, HonestSteps(file, hex, ToHex(commitment), call, key)).rows
            == [Upload(file, hex, false, Some(hex), Some(ToHex(commitment)), Some(key), Some(start.clock))]
  {
    var hex, commitmentHex := ToHex(d.crypto.sha256(file)), ToHex(commitment);
    var row := Upload(file, hex, false, Some(hex), Some(commitmentHex), None, None);
    StoredRow(d, start, file, commitment);
    AttachedRow(d, start, file, commitment, user, call, key);
    SentToChain(d, start, row, call);
    ThreeSteps(d, start, Store(file, Some(hex), Some(commitmentHex)), Chain(call), Attach(0, key), World([row], []), World([row], [call]));
  }

  lemma SentToChain(d: V.Deployment, start: V.State, row: Upload, call: V.Step)
    ensures NextWorld(d, start, World([row], []), Chain(call)) == World([row], [call])
  {
  }

  /** Whenever the prover delivers, the pairing accepts, both sign and the slot is vacant, the honest run
      earns the badge: one live row, with the record's address and the time the chain gave it. */
  lemma HonestBadge(d: V.Deployment, big: Parser, prover: Prover, w: Wallet, file: Blob,
                    claim: Claim, proof: SnarkjsProof, signals: seq<string>, o: OnChainProof,
                    start: V.State, feePayer: Pubkey, signers: set<Pubkey>)
    requires ClaimFor(d.crypto, DOMAIN_SEPARATOR, w, d.crypto.sha256(file)) == Ok(claim)
    requires prover(claim) == Some((proof, signals)) && SignalsAre(big, signals, claim)
    requires Convert(d.crypto, big, proof, signals) == Some(o) && |o.publicInputs| == 3
    requires d.crypto.groth16(VkCanonicalBytes(d.ownership), o.proofA + o.proofB + o.proofC,
                              Joined(o.publicInputs[0], o.publicInputs[1], o.publicInputs[2])).Ok?
    requires feePayer in signers && w.key in signers
    requires V.Vacant(start.ledger, d.crypto.address(Seeds.FILE_OWNERSHIP + w.key + d.crypto.sha256(file)), (a: V.Account) => a.OwnershipRecord?)
    ensures BigintToHex32(claim.commitment).Ok?
    ensures var hash, hex := d.crypto.sha256(file), BigintToHex32(claim.commitment).value;
            var r := Prove(d.crypto, big, prover, w, ToHex(hash), hex);
            && r.Ok? && |r.value.publicInputs| == 3
            && var key, call := d.crypto.address(Seeds.FILE_OWNERSHIP + w.key + hash), V.Submit(VerifyCall(r.value, feePayer, signers));
               RunWorld(d, start, HonestSteps(file, ToHex(hash), hex, call, key)).rows
               == [Upload(file, ToHex(hash), false, Some(ToHex(hash)), Some(hex), Some(key), Some(start.clock))]
  {
    HonestRunRecorded(d, big, prover, w, file, claim, proof, signals, o, start, feePayer, signers);
    CommitmentText(claim, o.publicInputs[2]);
    var r := Prove(d.crypto, big, prover, w, ToHex(d.crypto.sha256(file)), BigintToHex32(claim.commitment).value).value;
    HonestStepsRun(d, start, file, o.publicInputs[2], w.key, V.Submit(VerifyCall(r, feePayer, signers)),
                   d.crypto.address(Seeds.FILE_OWNERSHIP + w.key + d.crypto.sha256(file)));
  }

  lemma CommitmentText(claim: Claim, word: Bytes32)
    requires BE(word) == claim.commitment
    ensures BigintToHex32(claim.commitment) == Ok(ToHex(word))
  {
    ToBEOfBE(word);
    BEBound(word);
    PowersNamed();
    BigintToHex32Agrees(claim.commitment);
  }
}
