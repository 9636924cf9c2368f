/** The on-chain verifier: each instruction checks a proof and writes one record, once, at an address
    derived from the record's own fields. */
module Verifier {
  import opened Wrappers
  import opened Bytes
  import opened Crypto
  import opened FieldHalves
  import opened ProofConversion
  import opened VkLayout
  import opened Seeds

  type OneInput = s: seq<Bytes32> | |s| == 1 witness [ZERO_WORD]
  type ThreeInputs = s: seq<Bytes32> | |s| == 3 witness [ZERO_WORD, ZERO_WORD, ZERO_WORD]

  const MAX_BATCH := 4

  datatype ZkError =
    | InvalidProof | MalformedPublicInput | MismatchedDigest | ReplayedProof | VerifierInternal
    | MalformedFileHashInput | MalformedQueryHashInput | InvalidBatchSize
    | MissingSigner | AccountOfAnotherKind | AccountInUse

  datatype Account =
    | ProofRecord(operator: Pubkey, journalDigest: Bytes32, verifiedAt: int, initialized: bool)
    | BatchRecord(submitter: Pubkey, batchDigest: Bytes32, count: nat, verifiedAt: int, initialized: bool)
    | OwnershipRecord(owner: Pubkey, fileHash: Bytes32, commitment: Bytes32, verifiedAt: int, initialized: bool)
    | ComplianceRecord(payer: Pubkey, queryHash: Bytes32, commitment: Bytes32, verifiedAt: int, initialized: bool)

  type Ledger = map<Pubkey, Account>

  datatype Proof = Proof(a: Bytes64, b: Bytes128, c: Bytes64)

  datatype BatchEntry = BatchEntry(proof: Proof, publicInputs: OneInput)

  /** The program as deployed: three verifying keys are compiled in. */
  datatype Deployment = Deployment(crypto: Primitives, hello: VkBytes, ownership: VkBytes, compliance: VkBytes)

  datatype Call =
    | VerifyProof(user: Pubkey, feePayer: Pubkey, signers: set<Pubkey>, proof: Proof, input: OneInput, digest: Bytes32)
    | VerifyCompressed(user: Pubkey, feePayer: Pubkey, signers: set<Pubkey>, compressed: Bytes128, input: OneInput, digest: Bytes32)
    | VerifyBatch(user: Pubkey, feePayer: Pubkey, signers: set<Pubkey>, entries: seq<BatchEntry>, digest: Bytes32)
    | VerifyOwnership(user: Pubkey, feePayer: Pubkey, signers: set<Pubkey>, proof: Proof, inputs: ThreeInputs, digest: Bytes32)
    | VerifyCompliance(user: Pubkey, feePayer: Pubkey, signers: set<Pubkey>, proof: Proof, inputs: ThreeInputs, digest: Bytes32)

  // ---------------------------------------------------------------------
  // What a call means, apart from any state
  // ---------------------------------------------------------------------

  function Packed(p: Proof): Bytes256 {
    p.a + p.b + p.c
  }

  function Statements(entries: seq<BatchEntry>): (s: seq<Bytes32>)
    ensures |s| == |entries|
  {
    seq(|entries|, i requires 0 <= i < |entries| => entries[i].publicInputs[0])
  }

  function JournalDigests(c: Primitives, statements: seq<Bytes32>): (d: seq<Bytes32>)
    ensures |d| == |statements| && forall i :: 0 <= i < |d| ==> d[i] == c.sha256(statements[i])
  {
    seq(|statements|, i requires 0 <= i < |statements| => c.sha256(statements[i]))
  }

  function BatchDigest(c: Primitives, statements: seq<Bytes32>): Bytes32 {
    c.sha256(Flatten(JournalDigests(c, statements)))
  }

  function Kind(call: Call): Seeds.Kind {
    match call
    case VerifyProof(_, _, _, _, _, _) => Seeds.Proof
    case VerifyCompressed(_, _, _, _, _, _) => Seeds.Proof
    case VerifyBatch(_, _, _, _, _) => Seeds.Batch
    case VerifyOwnership(_, _, _, _, _, _) => Ownership
    case VerifyCompliance(_, _, _, _, _, _) => Compliance
  }

  /** Where a call writes. */
  function SlotOf(d: Deployment, call: Call): Pubkey {
    d.crypto.address(RecordSeeds(Kind(call), call.user, call.digest))
  }

  /** The address a record belongs at, from its own fields. */
  function HomeOf(d: Deployment, a: Account): Pubkey {
    match a
    case ProofRecord(user, digest, _, _) => d.crypto.address(RecordSeeds(Seeds.Proof, user, digest))
    case BatchRecord(user, digest, _, _, _) => d.crypto.address(RecordSeeds(Seeds.Batch, user, digest))
    case OwnershipRecord(user, hash, _, _, _) => d.crypto.address(RecordSeeds(Ownership, user, hash))
    case ComplianceRecord(user, hash, _, _, _) => d.crypto.address(RecordSeeds(Compliance, user, hash))
  }

  predicate OfKind(a: Account, kind: Seeds.Kind) {
    match kind
    case Proof => a.ProofRecord?
    case Batch => a.BatchRecord?
    case Ownership => a.OwnershipRecord?
    case Compliance => a.ComplianceRecord?
  }

  predicate Signed(call: Call) {
    call.feePayer in call.signers && (!call.VerifyCompliance? ==> call.user in call.signers)
  }

  /** The digest or hash named by the call is that of its public inputs. */
  predicate Stated(d: Deployment, call: Call) {
    match call
    case VerifyProof(_, _, _, _, input, digest) => d.crypto.sha256(input[0]) == digest
    case VerifyCompressed(_, _, _, _, input, digest) => d.crypto.sha256(input[0]) == digest
    case VerifyBatch(_, _, _, entries, digest) => BatchDigest(d.crypto, Statements(entries)) == digest
    case VerifyOwnership(_, _, _, _, inputs, hash) => (inputs[0], inputs[1]) == Halves(hash)
    case VerifyCompliance(_, _, _, _, inputs, hash) => (inputs[0], inputs[1]) == Halves(hash)
  }

  predicate ProperSize(call: Call) {
    call.VerifyBatch? ==> 2 <= |call.entries| <= MAX_BATCH
  }

  /** What the pairing library makes of the call's proof over the call's own public inputs. */
  function Verdict(d: Deployment, call: Call): Result<(), MosaicError> {
    match call
    case VerifyProof(_, _, _, proof, input, _) =>
      d.crypto.groth16(VkCanonicalBytes(d.hello), Packed(proof), input[0])
    case VerifyCompressed(_, _, _, compressed, input, _) =>
      (match d.crypto.decompress(compressed)
       case Err(e) => Err(e)
       case Ok(proof) => d.crypto.groth16(VkCanonicalBytes(d.hello), proof, input[0]))
    case VerifyBatch(_, _, _, entries, _) =>
      d.crypto.batch(VkCanonicalBytes(d.hello), Proofs(entries), Statements(entries))
    case VerifyOwnership(_, _, _, proof, inputs, _) =>
      d.crypto.groth16(VkCanonicalBytes(d.ownership), Packed(proof), Flatten(inputs))
    case VerifyCompliance(_, _, _, proof, inputs, _) =>
      d.crypto.groth16(VkCanonicalBytes(d.compliance), Packed(proof), Flatten(inputs))
  }

  /** The statement carried by the call is genuine. */
  predicate Genuine(d: Deployment, call: Call) {
    Signed(call) && ProperSize(call) && Stated(d, call) && Verdict(d, call).Ok?
  }

  function Proofs(entries: seq<BatchEntry>): seq<Bytes256> {
    seq(|entries|, i requires 0 <= i < |entries| => Packed(entries[i].proof))
  }

  /** The record a successful call leaves. */
  function RecordOf(call: Call, now: int): Account {
    match call
    case VerifyProof(user, _, _, _, _, digest) => ProofRecord(user, digest, now, true)
    case VerifyCompressed(user, _, _, _, _, digest) => ProofRecord(user, digest, now, true)
    case VerifyBatch(user, _, _, entries, digest) => BatchRecord(user, digest, |entries|, now, true)
    case VerifyOwnership(user, _, _, _, inputs, hash) => OwnershipRecord(user, hash, inputs[2], now, true)
    case VerifyCompliance(user, _, _, _, inputs, hash) => ComplianceRecord(user, hash, inputs[2], now, true)
  }

  /** The record account can be opened: there is none yet, or (except for a batch, which must create
      its account) there is one of the right kind. */
  predicate Opens(d: Deployment, ledger: Ledger, call: Call) {
    var key := SlotOf(d, call);
    key !in ledger || (!call.VerifyBatch? && OfKind(ledger[key], Kind(call)))
  }

  predicate Filled(d: Deployment, ledger: Ledger, call: Call) {
    SlotOf(d, call) in ledger && ledger[SlotOf(d, call)].initialized
  }

  /** The slot can still be written. */
  predicate SlotFree(d: Deployment, ledger: Ledger, call: Call) {
    Opens(d, ledger, call) && !Filled(d, ledger, call)
  }

  // ---------------------------------------------------------------------
  // The program
  // ---------------------------------------------------------------------

  /** A failed pairing, an internal failure, and everything about the shape of what was sent. */
  function MapMosaicError(e: MosaicError): (z: ZkError)
    ensures z == InvalidProof <==> e == PairingCheckFailed || e == VerificationFailed
    ensures z == VerifierInternal <==> e == Other
    ensures z in {InvalidProof, VerifierInternal, MalformedPublicInput}
  {
    match e
    case PairingCheckFailed => InvalidProof
    case VerificationFailed => InvalidProof
    case Other => VerifierInternal
    case _ => MalformedPublicInput
  }

  class Program {
    const d: Deployment
    var ledger: Ledger
    var clock: int

    constructor (d: Deployment, clock: int)
      ensures this.d == d && this.ledger == map[] && this.clock == clock
    {
      this.d, this.ledger, this.clock := d, map[], clock;
    }

    /** The public inputs copied one after the other into a buffer. */
    method ConcatInputs(inputs: seq<Bytes32>) returns (concat: Blob)
      ensures concat == Flatten(inputs)
    {
      var buffer := new Byte[32 * |inputs|](_ => 0);
      for i := 0 to |inputs|
        invariant buffer[..32 * i] == Flatten(inputs[..i])
      {
        ghost var before := buffer[..32 * i];
        forall k | 0 <= k < 32 {
          buffer[32 * i + k] := inputs[i][k];
        }
        assert buffer[..32 * i] == before;
        assert buffer[32 * i..32 * (i + 1)] == inputs[i];
        assert buffer[..32 * (i + 1)] == before + inputs[i];
        FlattenSnoc(inputs[..i], inputs[i]);
        assert inputs[..i + 1] == inputs[..i] + [inputs[i]];
      }
      assert inputs[..|inputs|] == inputs && buffer[..32 * |inputs|] == buffer[..];
      return buffer[..];
    }

    /** `A || B || C` in a 256-byte buffer. */
    method PackProof(p: Proof) returns (blob: Bytes256)
      ensures blob == Packed(p)
    {
      var buffer := new Byte[256](_ => 0);
      forall k | 0 <= k < 64 {
        buffer[k] := p.a[k];
      }
      forall k | 0 <= k < 128 {
        buffer[64 + k] := p.b[k];
      }
      forall k | 0 <= k < 64 {
        buffer[192 + k] := p.c[k];
      }
      assert buffer[..64] == p.a && buffer[64..192] == p.b && buffer[192..] == p.c;
      assert buffer[..] == buffer[..64] + buffer[64..192] + buffer[192..];
      return buffer[..];
    }

    /** Open the record account, creating it zeroed when there is none. A failing instruction takes
        the creation back, so the ledger itself is only written at the end. */
    method InitIfNeeded(key: Pubkey, kind: Seeds.Kind) returns (initialized: Option<bool>)
      ensures initialized == if key !in ledger then Some(false)
                             else if !OfKind(ledger[key], kind) then None
                             else Some(ledger[key].initialized)
    {
      if key !in ledger {
        return Some(false);
      }
      if !OfKind(ledger[key], kind) {
        return None;
      }
      return Some(ledger[key].initialized);
    }

    method VerifyProof(call: Call) returns (r: Result<(), ZkError>)
      requires call.VerifyProof?
      modifies this`ledger
      ensures r.Ok? <==> Genuine(d, call) && SlotFree(d, old(ledger), call)
      ensures r == Err(MismatchedDigest) <==> Signed(call) && Opens(d, old(ledger), call) && !Stated(d, call)
      ensures r == Err(ReplayedProof) <==>
                Signed(call) && Opens(d, old(ledger), call) && Stated(d, call) && Filled(d, old(ledger), call)
      ensures Signed(call) && ProperSize(call) && Stated(d, call) && SlotFree(d, old(ledger), call) && Verdict(d, call).Err? ==>
                r == Err(MapMosaicError(Verdict(d, call).error))
      ensures ledger == if r.Ok? then old(ledger)[SlotOf(d, call) := RecordOf(call, clock)] else old(ledger)
    {
      if call.feePayer !in call.signers || call.user !in call.signers {
        return Err(MissingSigner);
      }
      var key := d.crypto.address(RecordSeeds(Seeds.Proof, call.user, call.digest));
      var filled := InitIfNeeded(key, Seeds.Proof);
      if filled.None? {
        return Err(AccountOfAnotherKind);
      }
      var concat := ConcatInputs(call.input);
      FlattenOne(call.input[0]);
      assert call.input == [call.input[0]];
      if d.crypto.sha256(concat) != call.digest {
        return Err(MismatchedDigest);
      }
      if filled.value {
        return Err(ReplayedProof);
      }
      var blob := PackProof(call.proof);
      var vk := VkCanonical(d.hello);
      var verified := d.crypto.groth16(vk, blob, concat);
      if verified.Err? {
        return Err(MapMosaicError(verified.error));
      }
      ledger := ledger[key := ProofRecord(call.user, call.digest, clock, true)];
      return Ok(());
    }

    method VerifyProofCompressed(call: Call) returns (r: Result<(), ZkError>)
      requires call.VerifyCompressed?
      modifies this`ledger
      ensures r.Ok? <==> Genuine(d, call) && SlotFree(d, old(ledger), call)
      ensures r == Err(MismatchedDigest) <==> Signed(call) && Opens(d, old(ledger), call) && !Stated(d, call)
      ensures r == Err(ReplayedProof) <==>
                Signed(call) && Opens(d, old(ledger), call) && Stated(d, call) && Filled(d, old(ledger), call)
      ensures Signed(call) && ProperSize(call) && Stated(d, call) && SlotFree(d, old(ledger), call) && Verdict(d, call).Err? ==>
                r == Err(MapMosaicError(Verdict(d, call).error))
      ensures ledger == if r.Ok? then old(ledger)[SlotOf(d, call) := RecordOf(call, clock)] else old(ledger)
    {
      if call.feePayer !in call.signers || call.user !in call.signers {
        return Err(MissingSigner);
      }
      var key := d.crypto.address(RecordSeeds(Seeds.Proof, call.user, call.digest));
      var filled := InitIfNeeded(key, Seeds.Proof);
      if filled.None? {
        return Err(AccountOfAnotherKind);
      }
      var concat := ConcatInputs(call.input);
      FlattenOne(call.input[0]);
      assert call.input == [call.input[0]];
      if d.crypto.sha256(concat) != call.digest {
        return Err(MismatchedDigest);
      }
      if filled.value {
        return Err(ReplayedProof);
      }
      var blob := d.crypto.decompress(call.compressed);
      if blob.Err? {
        return Err(MapMosaicError(blob.error));
      }
      var vk := VkCanonical(d.hello);
      var verified := d.crypto.groth16(vk, blob.value, concat);
      if verified.Err? {
        return Err(MapMosaicError(verified.error));
      }
      ledger := ledger[key := ProofRecord(call.user, call.digest, clock, true)];
      return Ok(());
    }

    /** The hash of the entries' own journal digests, in order. */
    method ComputeBatchDigest(entries: seq<BatchEntry>) returns (digest: Bytes32)
      ensures digest == BatchDigest(d.crypto, Statements(entries))
    {
      ghost var statements := Statements(entries);
      var digests: seq<Bytes32> := [];
      for i := 0 to |entries|
        invariant digests == JournalDigests(d.crypto, statements)[..i]
      {
        var concat := ConcatInputs(entries[i].publicInputs);
        OneInputFlattens(entries[i].publicInputs);
        digests := digests + [d.crypto.sha256(concat)];
      }
      var digestConcat := ConcatInputs(digests);
      assert digests == JournalDigests(d.crypto, statements);
      return d.crypto.sha256(digestConcat);
    }

    method PackEntries(entries: seq<BatchEntry>) returns (proofBlobs: seq<Bytes256>, inputBlobs: seq<Blob>)
      ensures proofBlobs == Proofs(entries) && inputBlobs == Statements(entries)
    {
      proofBlobs, inputBlobs := [], [];
      for i := 0 to |entries|
        invariant proofBlobs == Proofs(entries)[..i] && inputBlobs == Statements(entries)[..i]
      {
        var blob := PackProof(entries[i].proof);
        var concat := ConcatInputs(entries[i].publicInputs);
        OneInputFlattens(entries[i].publicInputs);
        proofBlobs := proofBlobs + [blob];
        inputBlobs := inputBlobs + [concat];
      }
    }

    method VerifyProofBatch(call: Call) returns (r: Result<(), ZkError>)
      requires call.VerifyBatch?
      modifies this`ledger
      ensures r.Ok? <==> Genuine(d, call) && SlotFree(d, old(ledger), call)
      ensures r == Err(AccountInUse) <==> Signed(call) && SlotOf(d, call) in old(ledger)
      ensures r == Err(InvalidBatchSize) <==> Signed(call) && SlotOf(d, call) !in old(ledger) && !ProperSize(call)
      ensures r == Err(MismatchedDigest) <==>
                Signed(call) && SlotOf(d, call) !in old(ledger) && ProperSize(call) && !Stated(d, call)
      ensures Signed(call) && ProperSize(call) && Stated(d, call) && SlotFree(d, old(ledger), call) && Verdict(d, call).Err? ==>
                r == Err(MapMosaicError(Verdict(d, call).error))
      ensures ledger == if r.Ok? then old(ledger)[SlotOf(d, call) := RecordOf(call, clock)] else old(ledger)
    {
      if call.feePayer !in call.signers || call.user !in call.signers {
        return Err(MissingSigner);
      }
      var key := d.crypto.address(RecordSeeds(Seeds.Batch, call.user, call.digest));
      if key in ledger {
        return Err(AccountInUse);
      }
      var n := |call.entries|;
      if !(2 <= n <= MAX_BATCH) {
        return Err(InvalidBatchSize);
      }
      var computed := ComputeBatchDigest(call.entries);
      if computed != call.digest {
        return Err(MismatchedDigest);
      }
      var proofBlobs, inputBlobs := PackEntries(call.entries);
      var vk := VkCanonical(d.hello);
      var verified := d.crypto.batch(vk, proofBlobs, inputBlobs);
      if verified.Err? {
        return Err(MapMosaicError(verified.error));
      }
      ledger := ledger[key := BatchRecord(call.user, call.digest, n, clock, true)];
      return Ok(());
    }

    method VerifyFileOwnershipProof(call: Call) returns (r: Result<(), ZkError>)
      requires call.VerifyOwnership?
      modifies this`ledger
      ensures r.Ok? <==> Genuine(d, call) && SlotFree(d, old(ledger), call)
      ensures r == Err(MalformedFileHashInput) <==> Signed(call) && Opens(d, old(ledger), call) && !Stated(d, call)
      ensures r == Err(ReplayedProof) <==>
                Signed(call) && Opens(d, old(ledger), call) && Stated(d, call) && Filled(d, old(ledger), call)
      ensures Signed(call) && ProperSize(call) && Stated(d, call) && SlotFree(d, old(ledger), call) && Verdict(d, call).Err? ==>
                r == Err(MapMosaicError(Verdict(d, call).error))
      ensures ledger == if r.Ok? then old(ledger)[SlotOf(d, call) := RecordOf(call, clock)] else old(ledger)
    {
      if call.feePayer !in call.signers || call.user !in call.signers {
        return Err(MissingSigner);
      }
      var key := d.crypto.address(RecordSeeds(Ownership, call.user, call.digest));
      var filled := InitIfNeeded(key, Ownership);
      if filled.None? {
        return Err(AccountOfAnotherKind);
      }
      var hi, lo := HashToFieldHalves(call.digest);
      if call.inputs[0] != hi || call.inputs[1] != lo {
        return Err(MalformedFileHashInput);
      }
      if filled.value {
        return Err(ReplayedProof);
      }
      var blob := PackProof(call.proof);
      var concat := ConcatInputs(call.inputs);
      var vk := VkCanonical(d.ownership);
      var verified := d.crypto.groth16(vk, blob, concat);
      if verified.Err? {
        return Err(MapMosaicError(verified.error));
      }
      ledger := ledger[key := OwnershipRecord(call.user, call.digest, call.inputs[2], clock, true)];
      return Ok(());
    }

    /** The user is not asked to sign; only the fee payer is. */
    method VerifyComplianceProof(call: Call) returns (r: Result<(), ZkError>)
      requires call.VerifyCompliance?
      modifies this`ledger
      ensures r.Ok? <==> Genuine(d, call) && SlotFree(d, old(ledger), call)
      ensures r == Err(MalformedQueryHashInput) <==> Signed(call) && Opens(d, old(ledger), call) && !Stated(d, call)
      ensures r == Err(ReplayedProof) <==>
                Signed(call) && Opens(d, old(ledger), call) && Stated(d, call) && Filled(d, old(ledger), call)
      ensures Signed(call) && ProperSize(call) && Stated(d, call) && SlotFree(d, old(ledger), call) && Verdict(d, call).Err? ==>
                r == Err(MapMosaicError(Verdict(d, call).error))
      ensures ledger == if r.Ok? then old(ledger)[SlotOf(d, call) := RecordOf(call, clock)] else old(ledger)
    {
      if call.feePayer !in call.signers {
        return Err(MissingSigner);
      }
      var key := d.crypto.address(RecordSeeds(Compliance, call.user, call.digest));
      var filled := InitIfNeeded(key, Compliance);
      if filled.None? {
        return Err(AccountOfAnotherKind);
      }
      var hi, lo := HashToFieldHalves(call.digest);
      if call.inputs[0] != hi || call.inputs[1] != lo {
        return Err(MalformedQueryHashInput);
      }
      if filled.value {
        return Err(ReplayedProof);
      }
      var blob := PackProof(call.proof);
      var concat := ConcatInputs(call.inputs);
      var vk := VkCanonical(d.compliance);
      var verified := d.crypto.groth16(vk, blob, concat);
      if verified.Err? {
        return Err(MapMosaicError(verified.error));
      }
      ledger := ledger[key := ComplianceRecord(call.user, call.digest, call.inputs[2], clock, true)];
      return Ok(());
    }
  }

  lemma OneInputFlattens(input: OneInput)
    ensures Flatten(input) == input[0]
  {
    FlattenOne(input[0]);
    assert input == [input[0]];
  }

  // ---------------------------------------------------------------------
  // Runs
  // ---------------------------------------------------------------------

  datatype State = State(ledger: Ledger, clock: int)

  datatype Step = Tick(elapsed: nat) | Submit(call: Call)

  predicate Succeeds(d: Deployment, s: State, step: Step) {
    step.Submit? && Genuine(d, step.call) && SlotFree(d, s.ledger, step.call)
  }

  function Next(d: Deployment, s: State, step: Step): State {
    if step.Tick? then s.(clock := s.clock + step.elapsed)
    else if Succeeds(d, s, step) then s.(ledger := s.ledger[SlotOf(d, step.call) := RecordOf(step.call, s.clock)])
    else s
  }

  function Run(d: Deployment, s: State, steps: seq<Step>): State
    decreases |steps|
  {
    if steps == [] then s else Next(d, Run(d, s, steps[..|steps| - 1]), steps[|steps| - 1])
  }

  /** The step that accounts for a record: a genuine call that succeeded then and wrote it there. */
  ghost predicate WrittenBy(d: Deployment, s: State, steps: seq<Step>, key: Pubkey, a: Account, i: nat) {
    && i < |steps|
    && var before := Run(d, s, steps[..i]);
    && Succeeds(d, before, steps[i])
    && key == SlotOf(d, steps[i].call)
    && a == RecordOf(steps[i].call, before.clock)
  }

  lemma RecordGoesHome(d: Deployment, call: Call, now: int)
    ensures HomeOf(d, RecordOf(call, now)) == SlotOf(d, call)
    ensures RecordOf(call, now).initialized && OfKind(RecordOf(call, now), Kind(call))
  {
  }

  /** In every reachable state every record sits at the address of its own fields, is filled in, and
      was written by a genuine call earlier in the run. */
  lemma {:induction false} Provenance(d: Deployment, s: State, steps: seq<Step>, key: Pubkey) returns (i: nat)
    requires s.ledger == map[]
    requires key in Run(d, s, steps).ledger
    ensures var a := Run(d, s, steps).ledger[key];
            && WrittenBy(d, s, steps, key, a, i)
            && key == HomeOf(d, a) && a.initialized
    decreases |steps|
  {
    var n := |steps| - 1;
    var before := Run(d, s, steps[..n]);
    if Succeeds(d, before, steps[n]) && key == SlotOf(d, steps[n].call) {
      i := n;
      RecordGoesHome(d, steps[n].call, before.clock);
    } else {
      i := Provenance(d, s, steps[..n], key);
      assert steps[..n][..i] == steps[..i];
    }
  }

  /** Spelled out for the single-proof record: some earlier call, compressed or not, carried an input
      that hashes to the record's digest and a proof the pairing accepted over that input. */
  lemma ProofRecordVouched(d: Deployment, s: State, steps: seq<Step>, key: Pubkey) returns (input: Bytes32, proof: Bytes256)
    requires s.ledger == map[] && key in Run(d, s, steps).ledger && Run(d, s, steps).ledger[key].ProofRecord?
    ensures d.crypto.sha256(input) == Run(d, s, steps).ledger[key].journalDigest
    ensures d.crypto.groth16(VkCanonicalBytes(d.hello), proof, input).Ok?
  {
    var i := Provenance(d, s, steps, key);
    var call := steps[i].call;
    input := call.input[0];
    proof := if call.VerifyProof? then Packed(call.proof) else d.crypto.decompress(call.compressed).value;
  }

  lemma BatchRecordVouched(d: Deployment, s: State, steps: seq<Step>, key: Pubkey) returns (entries: seq<BatchEntry>)
    requires s.ledger == map[] && key in Run(d, s, steps).ledger && Run(d, s, steps).ledger[key].BatchRecord?
    ensures 2 <= |entries| <= MAX_BATCH && |entries| == Run(d, s, steps).ledger[key].count
    ensures BatchDigest(d.crypto, Statements(entries)) == Run(d, s, steps).ledger[key].batchDigest
    ensures d.crypto.batch(VkCanonicalBytes(d.hello), Proofs(entries), Statements(entries)).Ok?
  {
    var i := Provenance(d, s, steps, key);
    entries := steps[i].call.entries;
  }

  /** For ownership and compliance records the accepted public inputs are determined by the record:
      the halves of its hash, and its commitment. */
  lemma ClaimRecordVouched(d: Deployment, s: State, steps: seq<Step>, key: Pubkey) returns (proof: Bytes256)
    requires s.ledger == map[] && key in Run(d, s, steps).ledger
    requires Run(d, s, steps).ledger[key].OwnershipRecord? || Run(d, s, steps).ledger[key].ComplianceRecord?
    ensures var a := Run(d, s, steps).ledger[key];
            var hash := if a.OwnershipRecord? then a.fileHash else a.queryHash;
            var vk := if a.OwnershipRecord? then d.ownership else d.compliance;
            d.crypto.groth16(VkCanonicalBytes(vk), proof, Halves(hash).0 + Halves(hash).1 + a.commitment).Ok?
  {
    var i := Provenance(d, s, steps, key);
    var call := steps[i].call;
    proof := Packed(call.proof);
    FlattenThree(call.inputs[0], call.inputs[1], call.inputs[2]);
    assert call.inputs == [call.inputs[0], call.inputs[1], call.inputs[2]];
  }

  lemma FlattenThree(a: Bytes32, b: Bytes32, c: Bytes32)
    ensures Flatten([a, b, c]) == a + b + c
  {
    FlattenOne(a);
    FlattenSnoc([a], b);
    FlattenSnoc([a, b], c);
    assert [a] + [b] == [a, b] && [a, b] + [c] == [a, b, c];
  }

  /** No later step changes any field of a filled-in record. */
  lemma {:induction false} RecordsAreFinal(d: Deployment, s: State, steps: seq<Step>, key: Pubkey)
    requires key in s.ledger && s.ledger[key].initialized
    ensures key in Run(d, s, steps).ledger && Run(d, s, steps).ledger[key] == s.ledger[key]
    decreases |steps|
  {
    if steps != [] {
      RecordsAreFinal(d, s, steps[..|steps| - 1], key);
    }
  }

  /** A run cut in two. */
  lemma {:induction false} RunSplit(d: Deployment, s: State, steps: seq<Step>, more: seq<Step>)
    ensures Run(d, s, steps + more) == Run(d, Run(d, s, steps), more)
    decreases |more|
  {
    if more == [] {
      assert steps + more == steps;
    } else {
      assert (steps + more)[..|steps + more| - 1] == steps + more[..|more| - 1];
      RunSplit(d, s, steps, more[..|more| - 1]);
    }
  }

  /** From any state, a slot is written by at most one call of a run. */
  lemma WriteOnce(d: Deployment, s: State, steps: seq<Step>, i: nat, j: nat)
    requires i < j < |steps|
    requires Succeeds(d, Run(d, s, steps[..i]), steps[i]) && Succeeds(d, Run(d, s, steps[..j]), steps[j])
    ensures SlotOf(d, steps[i].call) != SlotOf(d, steps[j].call)
  {
    var key := SlotOf(d, steps[i].call);
    var after := steps[..i + 1];
    assert after[..i] == steps[..i];
    var t := Run(d, s, after);
    assert t == Next(d, Run(d, s, steps[..i]), steps[i]);
    RecordGoesHome(d, steps[i].call, Run(d, s, steps[..i]).clock);
    RunSplit(d, s, after, steps[i + 1..j]);
    assert after + steps[i + 1..j] == steps[..j];
    RecordsAreFinal(d, t, steps[i + 1..j], key);
  }

  /** The compressed and the uncompressed path share their slot: whichever proof bytes are sent, at
      most one of all such calls for a (user, journal digest) ever succeeds. */
  lemma ProofRecordedOnce(d: Deployment, s: State, steps: seq<Step>, i: nat, j: nat)
    requires i < |steps| && j < |steps|
    requires steps[i].Submit? && (steps[i].call.VerifyProof? || steps[i].call.VerifyCompressed?)
    requires steps[j].Submit? && (steps[j].call.VerifyProof? || steps[j].call.VerifyCompressed?)
    requires steps[i].call.user == steps[j].call.user && steps[i].call.digest == steps[j].call.digest
    requires Succeeds(d, Run(d, s, steps[..i]), steps[i]) && Succeeds(d, Run(d, s, steps[..j]), steps[j])
    ensures i == j
  {
    if i < j {
      WriteOnce(d, s, steps, i, j);
    } else if j < i {
      WriteOnce(d, s, steps, j, i);
    }
  }

  /** The same call made by, or for, another wallet. */
  function WithUser(call: Call, user: Pubkey): Call {
    call.(user := user, signers := call.signers + {user})
  }

  /** No circuit has the user among its public inputs: whatever a proof proves for one wallet it proves
      for every wallet, which only has to sign, or for compliance not even that. */
  lemma ProofServesAnyUser(d: Deployment, call: Call, user: Pubkey)
    requires Genuine(d, call)
    ensures Genuine(d, WithUser(call, user))
    ensures call.VerifyCompliance? ==> Genuine(d, call.(user := user))
  {
  }

  // ---------------------------------------------------------------------
  // Each call spelled out
  // ---------------------------------------------------------------------

  /** A record account of the right kind that can still be filled in, or none. */
  predicate Vacant(ledger: Ledger, key: Pubkey, kind: Account -> bool) {
    key !in ledger || (kind(ledger[key]) && !ledger[key].initialized)
  }

  /** A single proof is recorded exactly when payer and user sign, the digest is that of the input, the
      slot is vacant and the pairing accepts A, B and C, in this order, over the input. */
  lemma SingleCallOutcome(d: Deployment, s: State, user: Pubkey, payer: Pubkey, signers: set<Pubkey>, p: Proof, input: OneInput, digest: Bytes32)
    ensures var step := Submit(VerifyProof(user, payer, signers, p, input, digest));
            var key := d.crypto.address(PROOF + user + digest);
            && (Succeeds(d, s, step) <==>
                  && payer in signers && user in signers && d.crypto.sha256(input[0]) == digest
                  && Vacant(s.ledger, key, (a: Account) => a.ProofRecord?)
                  && d.crypto.groth16(VkCanonicalBytes(d.hello), p.a + p.b + p.c, input[0]).Ok?)
            && Next(d, s, step) == if Succeeds(d, s, step) then s.(ledger := s.ledger[key := ProofRecord(user, digest, s.clock, true)]) else s
  {
  }

  lemma CompressedCallOutcome(d: Deployment, s: State, user: Pubkey, payer: Pubkey, signers: set<Pubkey>, p: Bytes128, input: OneInput, digest: Bytes32)
    ensures var step := Submit(VerifyCompressed(user, payer, signers, p, input, digest));
            var key := d.crypto.address(PROOF + user + digest);
            && (Succeeds(d, s, step) <==>
                  && payer in signers && user in signers && d.crypto.sha256(input[0]) == digest
                  && Vacant(s.ledger, key, (a: Account) => a.ProofRecord?)
                  && d.crypto.decompress(p).Ok?
                  && d.crypto.groth16(VkCanonicalBytes(d.hello), d.crypto.decompress(p).value, input[0]).Ok?)
            && Next(d, s, step) == if Succeeds(d, s, step) then s.(ledger := s.ledger[key := ProofRecord(user, digest, s.clock, true)]) else s
  {
  }

  /** The lists a batch call stands for: entry by entry its proof, its input, and the hash of its input. */
  predicate InStep(c: Primitives, entries: seq<BatchEntry>, ps: seq<Bytes256>, xs: seq<Bytes32>, ds: seq<Bytes32>) {
    && |ps| == |entries| && |xs| == |entries| && |ds| == |entries|
    && forall i :: 0 <= i < |entries| ==>
         && ps[i] == entries[i].proof.a + entries[i].proof.b + entries[i].proof.c
         && xs[i] == entries[i].publicInputs[0]
         && ds[i] == c.sha256(entries[i].publicInputs[0])
  }

  lemma InStepDetermines(c: Primitives, entries: seq<BatchEntry>, ps: seq<Bytes256>, xs: seq<Bytes32>, ds: seq<Bytes32>)
    requires InStep(c, entries, ps, xs, ds)
    ensures ps == Proofs(entries) && xs == Statements(entries) && ds == JournalDigests(c, Statements(entries))
  {
  }

  /** A batch of 2 to 4 is recorded exactly when payer and user sign, the digest is the hash of the inputs'
      hashes joined in order, the account does not exist, and the batch pairing accepts each entry's
      proof against that entry's own input. */
  lemma BatchCallOutcome(d: Deployment, s: State, user: Pubkey, payer: Pubkey, signers: set<Pubkey>, entries: seq<BatchEntry>, digest: Bytes32,
                         ps: seq<Bytes256>, xs: seq<Bytes32>, ds: seq<Bytes32>)
    requires InStep(d.crypto, entries, ps, xs, ds)
    ensures var step := Submit(VerifyBatch(user, payer, signers, entries, digest));
            var key := d.crypto.address(BATCH + user + digest);
            && (Succeeds(d, s, step) <==>
                  && payer in signers && user in signers && 2 <= |entries| <= 4
                  && d.crypto.sha256(Flatten(ds)) == digest
                  && key !in s.ledger
                  && d.crypto.batch(VkCanonicalBytes(d.hello), ps, xs).Ok?)
            && Next(d, s, step) ==
               if Succeeds(d, s, step) then s.(ledger := s.ledger[key := BatchRecord(user, digest, |entries|, s.clock, true)]) else s
  {
    InStepDetermines(d.crypto, entries, ps, xs, ds);
  }

  /** Behind every batch record there are its entries, pairwise as they were sent. */
  lemma BatchRecordPairs(d: Deployment, s: State, steps: seq<Step>, key: Pubkey)
    returns (entries: seq<BatchEntry>, ps: seq<Bytes256>, xs: seq<Bytes32>, ds: seq<Bytes32>)
    requires s.ledger == map[] && key in Run(d, s, steps).ledger && Run(d, s, steps).ledger[key].BatchRecord?
    ensures |entries| == |ps| == |xs| == |ds| == Run(d, s, steps).ledger[key].count
    ensures forall i :: 0 <= i < |entries| ==> ps[i] == entries[i].proof.a + entries[i].proof.b + entries[i].proof.c
    ensures forall i :: 0 <= i < |entries| ==> xs[i] == entries[i].publicInputs[0] && ds[i] == d.crypto.sha256(xs[i])
    ensures d.crypto.batch(VkCanonicalBytes(d.hello), ps, xs).Ok?
    ensures d.crypto.sha256(Flatten(ds)) == Run(d, s, steps).ledger[key].batchDigest
  {
    entries := BatchRecordVouched(d, s, steps, key);
    ps, xs, ds := Proofs(entries), Statements(entries), JournalDigests(d.crypto, Statements(entries));
  }

  /** Ownership: payer and user sign, the first two inputs are the zero-padded halves of the hash, and the
      pairing accepts A, B and C over all three inputs in order. */
  lemma OwnershipCallOutcome(d: Deployment, s: State, user: Pubkey, payer: Pubkey, signers: set<Pubkey>, p: Proof, inputs: ThreeInputs, hash: Bytes32)
    ensures var step := Submit(VerifyOwnership(user, payer, signers, p, inputs, hash));
            var x: Blob, y: Blob, z: Blob := inputs[0], inputs[1], inputs[2];
            var key := d.crypto.address(FILE_OWNERSHIP + user + hash);
            && (Succeeds(d, s, step) <==>
                  && payer in signers && user in signers
                  && x == Zeros(16) + hash[..16] && y == Zeros(16) + hash[16..]
                  && Vacant(s.ledger, key, (a: Account) => a.OwnershipRecord?)
                  && d.crypto.groth16(VkCanonicalBytes(d.ownership), p.a + p.b + p.c, x + y + z).Ok?)
            && Next(d, s, step) ==
               if Succeeds(d, s, step) then s.(ledger := s.ledger[key := OwnershipRecord(user, hash, inputs[2], s.clock, true)]) else s
  {
    FlattenThree(inputs[0], inputs[1], inputs[2]);
    assert inputs == [inputs[0], inputs[1], inputs[2]];
  }

  /** Compliance: the same under its own key, and only the payer signs. */
  lemma ComplianceCallOutcome(d: Deployment, s: State, user: Pubkey, payer: Pubkey, signers: set<Pubkey>, p: Proof, inputs: ThreeInputs, hash: Bytes32)
    ensures var step := Submit(VerifyCompliance(user, payer, signers, p, inputs, hash));
            var x: Blob, y: Blob, z: Blob := inputs[0], inputs[1], inputs[2];
            var key := d.crypto.address(COMPLIANCE + user + hash);
            && (Succeeds(d, s, step) <==>
                  && payer in signers
                  && x == Zeros(16) + hash[..16] && y == Zeros(16) + hash[16..]
                  && Vacant(s.ledger, key, (a: Account) => a.ComplianceRecord?)
                  && d.crypto.groth16(VkCanonicalBytes(d.compliance), p.a + p.b + p.c, x + y + z).Ok?)
            && Next(d, s, step) ==
               if Succeeds(d, s, step) then s.(ledger := s.ledger[key := ComplianceRecord(user, hash, inputs[2], s.clock, true)]) else s
  {
    FlattenThree(inputs[0], inputs[1], inputs[2]);
    assert inputs == [inputs[0], inputs[1], inputs[2]];
  }

  // ---------------------------------------------------------------------
  // The client's proof at the program's door
  // ---------------------------------------------------------------------

  /** A converted one-signal proof always passes the program's digest check: what is left is the
      signatures and the pairing. */
  lemma ConvertedProofPasses(d: Deployment, big: Parser, p: SnarkjsProof, signals: seq<string>,
                             user: Pubkey, feePayer: Pubkey, signers: set<Pubkey>)
    requires |signals| == 1 && Acceptable(big, p, signals)
    ensures var o := Convert(d.crypto, big, p, signals).value;
            && |o.publicInputs| == 1
            && var call := VerifyProof(user, feePayer, signers, Proof.Proof(o.proofA, o.proofB, o.proofC), o.publicInputs, o.journalDigest);
            && Stated(d, call)
            && (Genuine(d, call) <==>
                feePayer in signers && user in signers
                && d.crypto.groth16(VkCanonicalBytes(d.hello), o.proofA + o.proofB + o.proofC, o.publicInputs[0]).Ok?)
  {
    OneInputFlattens(Convert(d.crypto, big, p, signals).value.publicInputs);
  }

  // ---------------------------------------------------------------------
  // Batches
  // ---------------------------------------------------------------------

  /** Two ordered lists of statements with one batch digest are the same list, or exhibit a collision
      of the hash. */
  lemma BatchDigestBinds(c: Primitives, s: seq<Bytes32>, t: seq<Bytes32>) returns (x: Blob, y: Blob)
    requires BatchDigest(c, s) == BatchDigest(c, t)
    ensures s == t || Collision(c.sha256, x, y)
  {
    var ds, dt := JournalDigests(c, s), JournalDigests(c, t);
    x, y := Flatten(ds), Flatten(dt);
    if x == y {
      FlattenInjective(ds, dt);
      if s != t {
        var i :| 0 <= i < |s| && s[i] != t[i];
        assert ds[i] == dt[i];
        x, y := s[i], t[i];
      }
    }
  }

  /** A user never records the same ordered list of statements twice. */
  lemma BatchRecordedOnce(d: Deployment, s: State, steps: seq<Step>, i: nat, j: nat)
    requires i < |steps| && j < |steps|
    requires steps[i].Submit? && steps[i].call.VerifyBatch? && steps[j].Submit? && steps[j].call.VerifyBatch?
    requires steps[i].call.user == steps[j].call.user
    requires Statements(steps[i].call.entries) == Statements(steps[j].call.entries)
    requires Succeeds(d, Run(d, s, steps[..i]), steps[i]) && Succeeds(d, Run(d, s, steps[..j]), steps[j])
    ensures i == j
  {
    if i < j {
      WriteOnce(d, s, steps, i, j);
    } else if j < i {
      WriteOnce(d, s, steps, j, i);
    }
  }
}
