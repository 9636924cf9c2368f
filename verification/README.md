# Etornie: verified models

Dafny models of the parts of the Etornie IP-management system where a mistake would be hardest to
see, with proofs of what they promise.

* **Three Solana programs.** `IpToken` and `SoulBound`: one frozen Token-2022 unit is issued per case
  and later burned, while holders and strangers do what Token-2022 (`Token2022`, `MapSum`) lets them.
  `Verifier` and `Seeds`: proofs are checked and recorded once, at addresses derived from the records
  themselves. `Attestation`: a current hash and the log of its changes.
* **The encodings between browser and chain.** `Bytes`, `Hex`, `Base58`, `FieldHalves`,
  `ProofConversion`, `ClaimProof` and `VkLayout` are the codecs written several times over in
  TypeScript, JavaScript, Python and Rust. `FileOwnership` composes them from uploaded bytes to the
  on-chain record and the badge, `X402` from a question to its payment, record and answer.
* **The silent token refresh** of the API client (`TokenRefresh`), any number of requests interleaved.
* **Service code with loops and tables.** `Base64`, `PythonInt` and `DownloadToken` (signed links),
  `Filing` (the attempt audit trail), `AdminFeed` (merged, sorted and paged events, batched joins).

Where the source updates state step by step, the model is a class or a loop proved against a function
or predicate over its states, and the properties are proved of every run of those steps. Hashes, MACs,
Poseidon, the pairing, address derivation and wallet signatures are unknown functions handed in
(`Crypto`). No hash is assumed free of collisions: where the system relies on it, the theorem ends "or
here is a collision". The browser and the script carry the same proof converter twice, and ownership
and compliance the same derivation of a claim; each is modelled once.

Readings of the source worth knowing:

* The modulus the clients name `BN254_P` is described there as the scalar prime; its value is the
  base-field modulus. Bounds are proved against the literal. The derived secret is described as 248
  bits; the code keeps 252.
* The upload service's 64-digit pattern also accepts a final newline. Such a claim passes the checks and
  then fails at the insert, because the column is 64 characters wide
  (`FileOwnership.NewlineFailsAtInsert`).
* `burn_case_nft` does not tie the token account to the case's client, and `mint_case_nft` does not
  require an empty mint. With one mint per case, as the setup script makes them, that is harmless
  (`SoulBound.SoulBoundAlways`). With a shared mint a burn can thaw a holder (`SoulBound.SharedMintFails`)
  or take another client's unit (`SoulBound.WrongUnitBurned`); `SoulBound.MatchedThroughoutIff` is the
  exact condition.
* The ownership circuit, its record and the attach endpoint do not tie the proof to the uploader, nor
  does the compliance proof bind the wallet, as a comment in the program says it does
  (`Verifier.ProofServesAnyUser`, `FileOwnership.StrangersRecordAttaches`). One payment and one proof can
  buy an answer for several wallets (`X402.TwoWalletsOnePayment`, `X402.OnePaymentTwoAnswersIff`).
* A question whose record reaches the chain without its answer reaching the table is shut out for good
  (`X402.StrandedForGood`).
* The retry of a filing describes itself as doing nothing when the draft has a submitted attempt; the
  code does not look (`Filing.FiledOnceIff`, `Filing.RetryFilesTwice`).
* The hash that stands for a filing is described as binding it one to one. It does, as long as no bar
  occurs in the class list (`X402.FilingPayloadDetermines`, `X402.FilingPayloadShared`).
* The feed's queries name no order. Paging over it is consistent as long as they return rows in one
  order, or no two rows of one table contribute different events at one moment
  (`AdminFeed.FeedIgnoresRowOrderIff`, `AdminFeed.PagesCanDiffer`).

The project's `dfyconfig.toml` takes in every file: `dafny verify dfyconfig.toml`.

## Model

| member | source | states |
|---|---|---|
| `Bytes.BigIntToBEBytes32` | scripts/proof_conversion.ts:44-58 | the digit-filling loop gives the 32 big-endian digits of `x`, and an error exactly for negative numbers and numbers of 2^256 and more |
| `Bytes.BEBytes32ToBigInt` | scripts/proof_conversion.ts:60-69 | the accumulating loop gives the number the bytes stand for, and an error exactly when there are not 32 |
| `Bytes.Codec32` | scripts/proof_conversion.ts:44-69 | encoder and decoder undo each other in both orders; encoding fails exactly outside [0, 2^256) |
| `Hex.WriteHex` | dashboard/src/lib/zk/fileOwnership.ts:82-86 | two lower-case digits for every byte, in order |
| `Hex.ReadHex` | dashboard/src/lib/zk/submitFileOwnership.ts:69-81 | the browser's lenient reader: optional `0x`, odd length refused, each pair read by `parseInt`, the first pair that is no number is the error |
| `Hex.HexRoundTrip` | dashboard/src/lib/zk/submitFileOwnership.ts:69-81 | reading what was written gives the bytes back, for all bytes |
| `Hex.HexReadThenWritten` | dashboard/src/lib/zk/submitFileOwnership.ts:69-81 | proper hexadecimal text is accepted, and writing what was read gives the text lower-cased |
| `Hex.HexFaithfulIff` | dashboard/src/lib/zk/submitFileOwnership.ts:69-81 | on text it accepts, the lenient reader is faithful exactly when the text is all hexadecimal digits |
| `Hex.HexReaderIsLenient` | dashboard/src/lib/zk/submitFileOwnership.ts:69-81 | a concrete text that is not hexadecimal and is accepted |
| `Hex.ToHexInjective` | dashboard/src/lib/zk/fileOwnership.ts:82-86 | different bytes have different texts |
| `Hex.BigintToHex32Agrees` | dashboard/src/lib/zk/submitFileOwnership.ts:83-89 | padding a bigint's digits to 64 is the hexadecimal text of its 32-byte encoding, and fails exactly when that encoding does |
| `Base58.Base58Injective` | dashboard/src/lib/x402/client.ts:219-222 | byte strings with one base58 text are equal, whatever their lengths |
| `FieldHalves.HashToFieldHalves` | programs/etornie-zk-verifier/src/lib.rs:696-702 | the program's two buffers: 16 zero bytes and a half of the hash each |
| `FieldHalves.SplitHash` | dashboard/src/lib/zk/fileOwnership.ts:68-80 | the browser's loops give the two 128-bit numbers, and an error exactly when the hash is not 32 bytes |
| `FieldHalves.SplitEncodesToHalves` | dashboard/src/lib/zk/fileOwnership.ts:68-80 | hi*2^128 + lo is the hash's number, both halves are below 2^128, and their encodings are byte for byte the halves the program expects |
| `FieldHalves.HalvesPinTheHash` | programs/etornie-zk-verifier/src/lib.rs:312-316 | the halves are injective in the hash, and two public inputs pass the program's check exactly when they encode the browser's halves; they then spell the hash |
| `FieldHalves.Masked` | dashboard/src/lib/zk/fileOwnership.ts:121-126 | the derived secret agrees with the digest's number modulo 2^252 unless that is 0, and then it is 1; it lies in [1, 2^252) |
| `FieldHalves.DeriveDeterministicSecret` | dashboard/src/lib/zk/fileOwnership.ts:103-127 | the signature-seeded secret, or an error exactly when the signature is not 64 bytes; a secret is always in [1, 2^252) |
| `FieldHalves.SecretInsideField` | dashboard/src/lib/zk/fileOwnership.ts:151-164 | the secret is below the scalar order, so the thrown "escaped the field" error is unreachable |
| `FieldHalves.PayloadDetermines` | dashboard/src/lib/zk/compliance.ts:86-93 | what a wallet signs determines the purpose, the wallet and the hash |
| `FieldHalves.ClaimIs` | dashboard/src/lib/zk/fileOwnership.ts:103-164 | a claim exists exactly when the signature has 64 bytes; its commitment is the Poseidon hash of secret, high half and low half, in the circuit's order, and its secret the masked hash of that signature |
| `FieldHalves.PrepareInput` | dashboard/src/lib/zk/compliance.ts:122-134 | preparing a claim, for either circuit, succeeds exactly when the wallet signs with 64 bytes, with the hash, halves and commitment of the contents |
| `ProofConversion.Set` | scripts/proof_conversion.ts:71-94 | writing part of a buffer leaves the rest alone |
| `ProofConversion.G1ToBytes` | scripts/proof_conversion.ts:71-76 | x then y, both big-endian |
| `ProofConversion.G2ToBytes` | scripts/proof_conversion.ts:82-94 | the second component of each coordinate first |
| `ProofConversion.NegateY` | scripts/proof_conversion.ts:101-109 | defined exactly on the field; the result is in the field and sums with y to 0 modulo `BN254_P` |
| `ProofConversion.NegateYInvolutive` | scripts/proof_conversion.ts:101-109 | negating twice gives y back |
| `ProofConversion.ComputeJournalDigest` | scripts/proof_conversion.ts:116-131 | the hash of the inputs laid end to end, refused exactly when some input is not 32 bytes |
| `ProofConversion.ConvertSignals` | scripts/proof_conversion.ts:166-172 | all signals encoded in order, or refused exactly when one is not a number of the field |
| `ProofConversion.ConvertPoints` | scripts/proof_conversion.ts:152-164 | accepted exactly when every coordinate fits and the first y is in the field; all eight coordinates are where the program reads them |
| `ProofConversion.ConvertSnarkjsProof` | scripts/proof_conversion.ts:133-177 | accepts exactly the well-formed proofs, with the two format errors told apart |
| `ProofConversion.ConversionReadsTexts` | scripts/proof_conversion.ts:133-177 | each 32-byte word of an accepted conversion is the number in its own text of the proof: A's x and negated y, B's second component before the first, C's two, and each signal in order |
| `ProofConversion.ConvertedIff` | scripts/proof_conversion.ts:133-177 | a proof is converted exactly when its format is right and affine, every coordinate is a number below 2^256, and the y of A and the signals are in the field |
| `ProofConversion.ConversionLossless` | scripts/proof_conversion.ts:133-177 | a decoder recovers all eight coordinates and every signal of every accepted proof |
| `ProofConversion.ConversionInjective` | scripts/proof_conversion.ts:133-177 | accepted proofs with equal bytes had equal coordinates and signals |
| `ClaimProof.ConvertedSignals` | circuits/file_ownership/file_ownership.circom:16-37 | given the circuit's public signals, the converted inputs are the halves of the hash and the encoded commitment |
| `VkLayout.G2RowsAgree` | scripts/extract_vk.js:47-59 | reversing the two little-endian words as one gives the same bytes as the proof converter's big-endian writer, for all coordinates below 2^256; likewise for G1 |
| `VkLayout.Extractor.RewriteG1` | scripts/extract_vk.js:87-100 | the loop replaces every coordinate but the last by its big-endian row |
| `VkLayout.Extractor.RewriteG2` | scripts/extract_vk.js:87-100 | the same for pairs of coordinates, second component first |
| `VkLayout.Extractor.RewriteInPlace` | scripts/extract_vk.js:87-100 | after the in-place rewrite every point of the document is its rewritten form and nothing else changed |
| `VkLayout.Extractor.EmitKey` | scripts/extract_vk.js:105-153 | from the rewritten document, the key whose points are those of the original JSON |
| `VkLayout.Extractor.Extract` | scripts/extract_vk.js:77-153 | succeeds exactly on groth16 over bn128 with at least two IC points, and gives the key of the JSON's points |
| `VkLayout.VkCanonical` | programs/etornie-zk-verifier/src/lib.rs:678-688 | the canonical bytes, 448 + 64 per IC point |
| `VkLayout.CanonicalParses` | programs/etornie-zk-verifier/src/lib.rs:678-688 | the canonical bytes parse back to exactly the one key |
| `VkLayout.KeyPipelineLossless` | scripts/extract_vk.js:87-153 | extraction, layout, parsing and reading give the points of the JSON back |
| `VkLayout.RewrittenG1Emits` | scripts/extract_vk.js:112-153 | what is emitted of a rewritten G1 point is the point as the proof converter writes it |
| `VkLayout.RewrittenG2Emits` | scripts/extract_vk.js:122-135 | the same for G2 |
| `Seeds.RecordSeedsSeparate` | programs/etornie-zk-verifier/src/lib.rs:54-76 | equal concatenated seeds and bump mean equal kind, user, digest and bump, over all four record kinds |
| `Seeds.CaseNftSeedsSeparate` | programs/etornie-ip-token/src/lib.rs:7-8 | case record seeds are injective in the case and never those of the authority |
| `Seeds.SeedsSpellTheirNames` | programs/etornie-zk-verifier/src/lib.rs:54-76 | the prefixes are the bytes of the texts in the programs |
| `Verifier.Program.ConcatInputs` | programs/etornie-zk-verifier/src/lib.rs:106-109 | the copying loop lays the inputs end to end |
| `Verifier.Program.PackProof` | programs/etornie-zk-verifier/src/lib.rs:124-127 | A, B and C in one 256-byte buffer |
| `Verifier.Program.ComputeBatchDigest` | programs/etornie-zk-verifier/src/lib.rs:176-185 | the hash of the entries' own journal digests, in order |
| `Verifier.Program.PackEntries` | programs/etornie-zk-verifier/src/lib.rs:193-207 | proofs and inputs of every entry, in order |
| `Verifier.Program.VerifyProof` | programs/etornie-zk-verifier/src/lib.rs:95-152 | succeeds exactly on a signed, digest-matching, pairing-accepted call on a free slot, then writes exactly that record; the refusals before the pairing happen exactly when they should, and a refusal by the pairing is reported by its code |
| `Verifier.Program.VerifyProofCompressed` | programs/etornie-zk-verifier/src/lib.rs:242-283 | the same for compressed proof bytes, at the same slot |
| `Verifier.Program.VerifyProofBatch` | programs/etornie-zk-verifier/src/lib.rs:166-232 | succeeds exactly on 2 to 4 accepted entries whose ordered digest matches and whose account does not exist |
| `Verifier.Program.VerifyFileOwnershipProof` | programs/etornie-zk-verifier/src/lib.rs:298-355 | the same for ownership: malformed halves and replays are refused exactly when they occur |
| `Verifier.Program.VerifyComplianceProof` | programs/etornie-zk-verifier/src/lib.rs:372-424 | the same for compliance, where only the fee payer signs |
| `Verifier.SingleCallOutcome` | programs/etornie-zk-verifier/src/lib.rs:95-152 | field by field: a plain call succeeds exactly when signed, hashing to its digest, on a vacant slot and accepted over its A, B, C and inputs; the record holds user, digest, time |
| `Verifier.CompressedCallOutcome` | programs/etornie-zk-verifier/src/lib.rs:242-283 | the same after decompressing A, B and C |
| `Verifier.BatchCallOutcome` | programs/etornie-zk-verifier/src/lib.rs:166-232 | a batch call succeeds exactly when signed, digest-matching, of 2 to 4 entries, on a vacant slot, and the pairing accepts proofs and inputs paired entry by entry |
| `Verifier.OwnershipCallOutcome` | programs/etornie-zk-verifier/src/lib.rs:298-355 | the same for ownership: halves of the hash first, commitment third |
| `Verifier.ComplianceCallOutcome` | programs/etornie-zk-verifier/src/lib.rs:372-424 | the same for compliance |
| `Verifier.MapMosaicError` | programs/etornie-zk-verifier/src/lib.rs:706-722 | which verdict of the pairing is reported as which error |
| `Verifier.RecordGoesHome` | programs/etornie-zk-verifier/src/lib.rs:442-585 | the record a call writes belongs at the address the call writes to, is filled in and of the right kind |
| `Verifier.Provenance` | programs/etornie-zk-verifier/src/lib.rs:95-424 | in every reachable state each record sits at the address of its own fields and was written by a genuine call earlier in the run |
| `Verifier.ProofRecordVouched` | programs/etornie-zk-verifier/src/lib.rs:95-152 | behind every proof record: an input hashing to its digest and a proof accepted over that input, by either path |
| `Verifier.BatchRecordVouched` | programs/etornie-zk-verifier/src/lib.rs:166-232 | behind every batch record: an accepted batch of 2 to 4 entries with its digest and count |
| `Verifier.BatchRecordPairs` | programs/etornie-zk-verifier/src/lib.rs:193-223 | behind every batch record: lists of proofs and inputs, the i-th proof and the i-th input of the i-th entry, accepted together, and the digest is the hash of the inputs' hashes in order |
| `Verifier.ClaimRecordVouched` | programs/etornie-zk-verifier/src/lib.rs:298-424 | behind every ownership or compliance record: a proof accepted over the halves of its hash and its own commitment |
| `Verifier.RecordsAreFinal` | programs/etornie-zk-verifier/src/lib.rs:113-142 | no later step changes any field of a filled-in record |
| `Verifier.WriteOnce` | programs/etornie-zk-verifier/src/lib.rs:113-142 | a slot is written at most once in a run |
| `Verifier.ProofRecordedOnce` | programs/etornie-zk-verifier/src/lib.rs:256-274 | of all compressed and uncompressed calls for one user and digest, whatever their bytes, at most one succeeds |
| `Verifier.ConvertedProofPasses` | programs/etornie-zk-verifier/src/lib.rs:106-111 | the converter's digest of a one-signal proof always passes the program's check; the call is genuine exactly when signed and accepted by the pairing |
| `Verifier.ProofServesAnyUser` | programs/etornie-zk-verifier/src/lib.rs:559-573 | a genuine call stays genuine for any other wallet that signs, and for compliance without its signature |
| `Verifier.BatchDigestBinds` | programs/etornie-zk-verifier/src/lib.rs:174-190 | ordered statement lists with one batch digest are equal, or the lemma returns a hash collision |
| `Verifier.BatchRecordedOnce` | programs/etornie-zk-verifier/src/lib.rs:166-232 | a user records an ordered list of statements at most once |
| `FileOwnership.UploadService.StoreUpload` | services/api/app/agent/uploads.py:77-132 | stores exactly no claim, or 64 digits of the hash of the bytes and 64 of a commitment; incomplete claims, wrong hashes and a commitment too long for its column are told apart; the row is appended and nothing else changes |
| `FileOwnership.UploadService.CancelUpload` | services/api/app/agent/uploads.py:162-187 | marks that row and no other |
| `FileOwnership.UploadService.AttachOwnershipProof` | services/api/app/agent/router.py:756-851 | attaches exactly when the live row's hash and commitment are those of a filled-in ownership record, and copies its address and date |
| `FileOwnership.Rederive` | dashboard/src/lib/zk/submitFileOwnership.ts:128-143 | the claim derived again, or the mismatch with the commitment stored |
| `FileOwnership.ProveDocumentOwnership` | dashboard/src/lib/zk/submitFileOwnership.ts:108-165 | steps 1 to 4: the request posted, or the first failing check |
| `FileOwnership.InstructionRoundTrip` | services/api/app/solana/client.py:1287-1345 | the program decodes exactly the proof, inputs and hash that were laid out |
| `FileOwnership.StoredClaim` | services/api/app/agent/uploads.py:77-127 | what is kept of an accepted claim reads back as the hash of the bytes |
| `FileOwnership.ProveFromRow` | dashboard/src/lib/zk/submitFileOwnership.ts:128-165 | proving from the stored texts is deriving the claim again for the hash of the uploaded bytes and proving that, error for error |
| `FileOwnership.ProvedInputs` | dashboard/src/lib/zk/submitFileOwnership.ts:133-152 | a proved claim that agrees with the row carries the halves of the hash and a commitment that reads as the row's |
| `FileOwnership.ProvedClaimRecorded` | programs/etornie-zk-verifier/src/lib.rs:312-346 | the transaction of a proved claim passes the halves check, and a success leaves the record the row can be matched with |
| `FileOwnership.PostedProofGenuineIff` | dashboard/src/lib/zk/submitFileOwnership.ts:145-165 | the transaction posted is genuine exactly when both sign and the pairing accepts the converted A, B and C, in this order, over the three converted inputs |
| `FileOwnership.HonestRunRecorded` | programs/etornie-zk-verifier/src/lib.rs:298-355 | an honest run is recorded whenever the pairing accepts the converted proof |
| `FileOwnership.OwnershipEndToEnd` | programs/etornie-zk-verifier/src/lib.rs:312-346 | from uploaded bytes to chain: proving from the row gives a request whose halves check never fails, and a success leaves a record of the bytes' SHA-256 and the row's commitment |
| `FileOwnership.RederivedIff` | dashboard/src/lib/zk/submitFileOwnership.ts:135-143 | a stored commitment agrees with a wallet exactly when it is that wallet's, and the mismatch is reported exactly otherwise |
| `FileOwnership.HonestRun` | dashboard/src/lib/zk/fileOwnership.ts:151-164 | what the browser prepares is accepted for storage and proved later by the same wallet |
| `FileOwnership.NewlineFailsAtInsert` | services/api/app/agent/models.py:424-427 | what passes the service's checks is stored, except exactly a commitment with a final newline, which the 64-character column refuses |
| `FileOwnership.RowsOk` | services/api/app/agent/uploads.py:57-132 | in every run of service and chain every row has the hash of its bytes, and a verified one agrees with its record |
| `FileOwnership.BadgeIsEarned` | services/api/app/agent/router.py:756-851 | a verified row stands for a pairing-accepted proof over the halves of the uploaded bytes' hash and the commitment stored at upload |
| `FileOwnership.HonestBadge` | services/api/app/agent/router.py:756-851 | upload, proof and attachment by an honest wallet end in one live row with its own hash and commitment, the record's address and the time the chain gave it |
| `FileOwnership.RowsSettle` | services/api/app/agent/router.py:756-851 | no later step rewrites an upload or a badge once earned, and a cancelled row changes no more |
| `FileOwnership.AttachIgnoresOwner` | services/api/app/agent/router.py:815-836 | whose record it is does not matter to the endpoint |
| `FileOwnership.StrangersRecordAttaches` | services/api/app/agent/router.py:815-836 | any wallet that signs for a public proof gets a record that earns the same row its badge |
| `FileOwnership.OwnerCheckWouldBind` | services/api/app/agent/router.py:815-836 | were the owner compared with the uploader's wallet, a badge would mean that this wallet signed the call proving this hash and commitment |
| `IpToken.Program.MintCaseNft` | programs/etornie-ip-token/src/lib.rs:26-94 | succeeds exactly under the account constraints and token rules, then thaw, mint, freeze and record amount to one step; otherwise nothing changes |
| `IpToken.Program.BurnCaseNft` | programs/etornie-ip-token/src/lib.rs:102-147 | succeeds exactly on a live record with a frozen account of its mint; "already burned" exactly on dated records; otherwise nothing changes |
| `IpToken.MintIsThreeInstructions` | programs/etornie-ip-token/src/lib.rs:26-72 | a mint succeeds exactly when the account constraints hold and thaw, mint and freeze succeed one after the other, and leaves the tokens as they leave them |
| `IpToken.BurnIsTwoInstructions` | programs/etornie-ip-token/src/lib.rs:102-140 | the same for a burn: thaw, then burn as the program's own address |
| `Token2022.FrozenRefuses` | programs/etornie-ip-token/src/lib.rs:20-35 | a frozen account can be neither credited, debited, approved nor handed over |
| `Token2022.FreezeAndThaw` | programs/etornie-ip-token/src/lib.rs:33-72 | freezing and thawing are for the mint's freeze authority, exactly one of them is possible, and each takes the other back |
| `Token2022.AuthorityHandsOver` | scripts/nft/setup_mint.ts:155-176 | only the present authority hands over, its successor can hand back, and what is given up is nobody's |
| `SoulBound.ConservedStep` | scripts/nft/setup_mint.ts:123-180 | every holder, stranger and authority step keeps supply equal to the sum of balances |
| `SoulBound.StrangersCannotTouch` | programs/etornie-ip-token/src/lib.rs:21-25 | nobody outside the program moves, thaws, mints or burns a unit of a locked mint |
| `SoulBound.InvNext` | programs/etornie-ip-token/src/lib.rs:26-147 | every step of the program, the setup sequence and everybody else keeps the invariant |
| `SoulBound.SoulBoundAlways` | programs/etornie-ip-token/src/lib.rs:26-147 | in every run, for every single-use mint of the setup sequence: supply = sum of balances = unburned records <= 1, and the holder is frozen and is the recorded client |
| `SoulBound.SupplyIsConserved` | programs/etornie-ip-token/src/lib.rs:26-147 | in every run, for every mint, supply is the sum of balances |
| `SoulBound.BurnTakesTheUnit` | programs/etornie-ip-token/src/lib.rs:102-147 | a successful burn takes the one unit out of the recorded client's account |
| `SoulBound.BurnStaysPossible` | programs/etornie-ip-token/src/lib.rs:196-233 | whatever was done to it, a live case can always be burned |
| `SoulBound.BurnKeepsFrozenIff` | programs/etornie-ip-token/src/lib.rs:102-147 | a burn keeps all holders frozen exactly when the named account holds a single unit |
| `SoulBound.FrozenThroughoutIff` | programs/etornie-ip-token/src/lib.rs:23-25 | freezing alone: for mints shared by any number of cases, holders stay frozen throughout a run exactly when every successful burn names an account holding one unit |
| `SoulBound.BurnMatchedIff` | programs/etornie-ip-token/src/lib.rs:102-147 | a burn keeps holders frozen and every owner's units equal to that client's live cases exactly when the named account holds one unit and belongs to the burned case's client |
| `SoulBound.StepMatchedIff` | programs/etornie-ip-token/src/lib.rs:26-147 | of all steps, by the program, the setup sequence or anybody else, only an improper burn breaks that match |
| `SoulBound.MatchedThroughoutIff` | programs/etornie-ip-token/src/lib.rs:26-147 | in every run, for every mint of the setup sequence shared by any number of cases: holders are frozen and everybody holds one unit for each live case of theirs throughout, exactly when every successful burn names an account of the case's own client holding one unit |
| `SoulBound.SharedMintFails` | programs/etornie-ip-token/src/lib.rs:26-94 | a concrete run with a shared mint ends with a thawed account holding the unit of a live case |
| `SoulBound.WrongUnitBurned` | programs/etornie-ip-token/src/lib.rs:196-233 | a concrete run with a shared mint in which all holders stay frozen, and the burn of one client's case takes the unit of another client whose case is live |
| `SoulBound.RecordHistory` | programs/etornie-ip-token/src/lib.rs:235-246 | a record never disappears; only its burn date changes, once, from zero |
| `SoulBound.StepIsLogged` | programs/etornie-ip-token/src/lib.rs:248-264 | a step logs nothing and changes no record, or logs one entry that says exactly what changed |
| `SoulBound.LogRebuildsRecords` | programs/etornie-ip-token/src/lib.rs:248-264 | replaying the events of any run gives exactly the records on chain |
| `SoulBound.RecordFromCalls` | programs/etornie-ip-token/src/lib.rs:74-82 | in every run each field of a record is that of a mint call signed by client and operator, and its dates are those of that mint and of the burn |
| `SoulBound.EventFromCall` | programs/etornie-ip-token/src/lib.rs:248-264 | in every run each log entry has the fields of a call that succeeded at its time |
| `SoulBound.RecordMintsAreProgrammed` | programs/etornie-ip-token/src/lib.rs:150-194 | the mint of every record has the program as mint and freeze authority for good |
| `SoulBound.HonestIssue` | scripts/nft/setup_mint.ts:123-180 | after the setup sequence and the opening of the client's account, the signed mint call succeeds and the unit is where it belongs |
| `Attestation.Program.CreateCaseAttestation` | programs/etornie-attestation/src/lib.rs:9-24 | succeeds exactly when signed by both and the address is free, and writes every field; "in use" exactly when it is not |
| `Attestation.Program.UpdateCaseAttestation` | programs/etornie-attestation/src/lib.rs:32-53 | replaces the hash only, and logs old and new hash, actor, operator and time |
| `Attestation.ExistsIffCreated` | programs/etornie-attestation/src/lib.rs:55-81 | an account exists exactly when someone signed to create it, at the address of its own case id |
| `Attestation.ReplayIsChain` | programs/etornie-attestation/src/lib.rs:32-53 | a log that replays is a chain: the first old hash is the start, each next one the previous new hash, the last new hash the result |
| `Attestation.LogReplays` | programs/etornie-attestation/src/lib.rs:9-53 | the account is that of the first signed creation in every field but the hash, and its hash is the replay of the case's log from the creation hash |
| `Attestation.CreatedOnce` | programs/etornie-attestation/src/lib.rs:58-67 | a case id is created at most once in a run |
| `Attestation.EventsAreSigned` | programs/etornie-attestation/src/lib.rs:83-98 | every log entry comes from an update its actor and the operator signed |
| `Attestation.CreateOutcome` | programs/etornie-attestation/src/lib.rs:9-24 | field by field: creation succeeds exactly when both sign and the address is free; the account holds the caller's own values |
| `Attestation.UpdateOutcome` | programs/etornie-attestation/src/lib.rs:32-53 | an update, signed by operator and actor, changes the hash alone, and the entry names old and new hash, actor, operator and time |
| `TokenRefresh.ApiClient.Send` | dashboard/src/lib/api.ts:9-15 | a first send carries the access cookie |
| `TokenRefresh.ApiClient.SetToken` | dashboard/src/lib/auth.ts:28-33 | the refresh cookie changes only when a new one came |
| `TokenRefresh.ApiClient.HandleAuthFailure` | dashboard/src/lib/api.ts:38-48 | both tokens are removed |
| `TokenRefresh.ApiClient.RefreshAccessToken` | dashboard/src/lib/api.ts:50-59 | a call is posted exactly when there is a refresh token |
| `TokenRefresh.ApiClient.OnResponse` | dashboard/src/lib/api.ts:69-107 | the interceptor up to its await is the protocol's response step |
| `TokenRefresh.ApiClient.OnRefreshReply` | dashboard/src/lib/api.ts:60-67 | the refresh call's return is the protocol's reply step |
| `TokenRefresh.ApiClient.OnRefreshFinally` | dashboard/src/lib/api.ts:103-105 | the shared promise is cleared |
| `TokenRefresh.ApiClient.OnResume` | dashboard/src/lib/api.ts:107-115 | the interceptor after its await is the protocol's resume step |
| `TokenRefresh.InvNext` | dashboard/src/lib/api.ts:69-116 | every step keeps the invariant |
| `TokenRefresh.SingleFlight` | dashboard/src/lib/api.ts:23-106 | at no moment of any execution are two refreshes outstanding |
| `TokenRefresh.SharedOutcome` | dashboard/src/lib/api.ts:107-115 | requests that joined one refresh were all replayed or all rejected by it |
| `TokenRefresh.RequestLife` | dashboard/src/lib/api.ts:69-116 | a request reaches the wire once or twice, twice only after a successful refresh and then with a token, and settles once |
| `TokenRefresh.TokensRemovedOnlyWithReason` | dashboard/src/lib/api.ts:84-114 | tokens are removed only after a failed refresh, a second 401 or a 401 on the refresh URL (or when cookies expire) |
| `TokenRefresh.RefreshPostsBounded` | dashboard/src/lib/api.ts:101-106 | refresh calls never exceed the requests that met a first 401 |
| `TokenRefresh.MeasureDecreases` | dashboard/src/lib/api.ts:69-116 | a measure over request phases and refreshes falls with every protocol step and rises by five with a new request |
| `TokenRefresh.ExecutionsAreShort` | dashboard/src/lib/api.ts:69-116 | an execution has at most five protocol steps for each request issued |
| `TokenRefresh.Progress` | dashboard/src/lib/api.ts:69-116 | as long as something is unfinished some protocol step is enabled |
| `TokenRefresh.StuckMeansSettled` | dashboard/src/lib/api.ts:69-116 | where no protocol step is enabled every request has settled once and no promise is shared |
| `TokenRefresh.RespondOutcome` | dashboard/src/lib/api.ts:69-115 | what becomes of each response: delivered, rejected, signed out or waiting, by status, first or second 401, the refresh URL and the stored token |
| `TokenRefresh.StoredTokens` | dashboard/src/lib/api.ts:50-67 | in every execution the stored tokens are a fold over the steps: those of the last sign-in or successful refresh (the refresh token only when a new one came), none after a removal |
| `TokenRefresh.RefreshHandsOut` | dashboard/src/lib/api.ts:50-67 | what a refresh hands to its waiters is the access token of its own reply, and of a failed one nothing |
| `TokenRefresh.HeaderSent` | dashboard/src/lib/api.ts:9-15 | a first send carries the access token stored at that moment; a replay that moment's, or the refresh's when none is stored |
| `X402.Sha256Concat` | dashboard/src/lib/x402/client.ts:112-118 | the hash of the two parts joined |
| `X402.MemoBinds` | dashboard/src/lib/x402/client.ts:219-222 | one memo stands for one hash and one commitment, or exhibits a collision |
| `X402.DecodeRequest` | services/api/app/etorniegpt/router.py:184-241 | accepts exactly the requests with right lengths, three inputs, the question's own hash and its halves |
| `X402.AskOverX402` | dashboard/src/lib/x402/client.ts:215-270 | whatever the client posts is well formed for the service and was paid for with the memo the service expects |
| `X402.VerifyPaymentTx` | services/api/app/solana/client.py:1563-1677 | accepts exactly a successful transaction that credits the vault enough and carries exactly the memo |
| `X402.PaysIff` | services/api/app/solana/client.py:1563-1677 | a payment counts exactly when it went through, the vault gained enough where it first stands among the accounts, and an instruction of the memo program says the memo |
| `X402.ChatService.FindExisting` | services/api/app/etorniegpt/router.py:310-326 | the oldest row of the wallet and question |
| `X402.ChatService.Chat` | services/api/app/etorniegpt/router.py:158-431 | the whole handler, cached answers, lost submissions and model failures included; payment refused exactly when it does not pay; a failed model leaves the record on chain and no row |
| `X402.RowsAreBacked` | services/api/app/etorniegpt/router.py:359-414 | in every run every row has a compliance record of its wallet and question, shows its commitment, and a finalised payment carries the memo of what the record says |
| `X402.OneRowEach` | services/api/app/etorniegpt/router.py:310-326 | a wallet and a question have at most one row |
| `X402.NewQuestionOutcome` | services/api/app/etorniegpt/router.py:184-422 | from the request's own fields to reply and record: a question not in the table is answered exactly when sizes, hash, halves, memo, slot and pairing over A, B, C and the three inputs are right and confirmation and model come through |
| `X402.PaidThenAsked` | services/api/app/etorniegpt/router.py:236-309 | a question meets the payments and the chain as they are when it is asked |
| `X402.HandledAnswer` | services/api/app/etorniegpt/router.py:310-431 | a new answer is the model's, stored with what was asked and shown as stored; an answer from the table is that of the row |
| `X402.RowsHoldAnswers` | services/api/app/etorniegpt/router.py:386-414 | in every run every row was appended by a question of that run and holds its words, asker, wallet, payment and the model's answer to it |
| `X402.RepliesRepeatTheFirst` | services/api/app/etorniegpt/router.py:310-357 | every reply shows the answer given when that wallet's question was first answered in the run, which is what the model said then |
| `X402.ReplyBinding` | services/api/app/etorniegpt/router.py:359-422 | every reply shows the commitment of the record on chain; for a new answer the memo is that record's; for a cached one exactly when the two commitments agree, or on a collision |
| `X402.PaidIgnoresPayer` | services/api/app/solana/client.py:1563-1677 | the same payment counts whichever wallet is named as payer |
| `X402.OnePaymentTwoAnswersIff` | services/api/app/etorniegpt/router.py:236-414 | two questions naming one payment are both answered on it exactly when it credits the vault once and carries the memos of both |
| `X402.SharedPaymentCarriesBoth` | services/api/app/etorniegpt/router.py:359-414 | any two rows of a run on one payment have both their memos in it; where the memos are one, so are question hash and commitment, or here is a collision |
| `X402.TwoWalletsOnePayment` | services/api/app/etorniegpt/router.py:158-431 | a concrete run in which one transfer, one memo and one proof buy the answer for two wallets |
| `X402.StrandedForGood` | services/api/app/etorniegpt/router.py:359-414 | once a question is recorded without a stored answer, no later request of that wallet for it is ever answered |
| `X402.AnsweredOrStranded` | services/api/app/etorniegpt/router.py:359-414 | a paid, new, genuine question is answered exactly when confirmation and model come through, and stranded exactly when it was sent and one did not |
| `X402.FilingPayloadDetermines` | services/api/app/services/x402_core.py:177-194 | equal payloads exactly for equal submission ids, mark texts (missing counts as empty) and class lists, whatever the marks contain, as long as ids and class lists have no bar |
| `X402.FilingPayloadShared` | services/api/app/services/x402_core.py:177-194 | with a bar in the class list two different submissions share a payload |
| `Base64.DecodeEncode` | services/api/app/agent/download_token.py:32-38 | the decoder takes the padded text of every byte string back to it |
| `Base64.RepaddingRestores` | services/api/app/agent/download_token.py:32-38 | stripping the padding and adding `-len % 4` back gives the padded text, for every length |
| `Base64.UnpaddedRoundTrip` | services/api/app/agent/download_token.py:32-38 | unpadded text decodes after re-padding, for byte strings of every length |
| `Base64.PaddingNeeded` | services/api/app/agent/download_token.py:36-38 | without re-padding, exactly the byte strings whose length is a multiple of three would decode |
| `PythonInt.ReadIntText` | services/api/app/agent/download_token.py:60-75 | `int` reads back what formatting an integer wrote |
| `DownloadToken.SplitRestores` | services/api/app/agent/download_token.py:69-71 | the first dot cuts the text in the one way that leaves none before it |
| `DownloadToken.SignedTextDetermines` | services/api/app/agent/download_token.py:61-78 | the signed text determines the file and the expiry |
| `DownloadToken.SignatureAccepted` | services/api/app/agent/download_token.py:66-84 | a signature under any written expiry and any id is accepted exactly until that expiry and where the MACs coincide |
| `DownloadToken.TokenLifetime` | services/api/app/agent/download_token.py:49-84 | a token made at t0 verifies at t1 exactly while int(t1) <= int(t0) + max(ttl, 1); for another file only on a MAC coincidence of two different texts |
| `DownloadToken.LifetimeOnTheClock` | services/api/app/agent/download_token.py:60-77 | for clock times from zero on: valid exactly while floor(t1) <= floor(t0) + ttl, and with a ttl below one second as with one |
| `DownloadToken.TokenShape` | services/api/app/agent/download_token.py:49-63 | the token is the expiry, a dot and the unpadded signature of file and expiry |
| `DownloadToken.ExpiryIsSigned` | services/api/app/agent/download_token.py:66-84 | a rewritten expiry is accepted only on such a coincidence |
| `DownloadToken.ExpiredForGood` | services/api/app/agent/download_token.py:76-77 | what verifies later verified earlier |
| `DownloadToken.SpellingDoesNotMatter` | services/api/app/agent/download_token.py:71-75 | a token's text is not unique: blanks and a plus sign before the expiry change nothing |
| `Filing.AssertSubmittable` | services/api/app/agent/filing_service.py:115-135 | the missing slots in order, then the status; success exactly without either |
| `Filing.BuildEuipoClasses` | services/api/app/agent/filing_service.py:62-79 | the draft's classes in order, all in 1..45 and each with a term; refused exactly when empty, not numbers or out of range |
| `Filing.FilingDesk.NextAttemptNumber` | services/api/app/agent/filing_service.py:82-91 | one more than the draft's rows on the platform |
| `Filing.FilingDesk.FindSubmittedAttempt` | services/api/app/agent/filing_service.py:94-112 | a landed attempt of the draft, and none exactly when there is none |
| `Filing.FilingDesk.SubmitEutm` | services/api/app/agent/filing_service.py:158-237 | a failed pre-flight writes no row; otherwise exactly one row, with number, payload and outcome settled |
| `Filing.FirstGivenIs` | services/api/app/agent/filing_service.py:217-221 | the reference is the first of the three that is not empty |
| `Filing.LandedReference` | services/api/app/agent/filing_service.py:217-237 | a landed row carries the first non-empty reference of the office's answer |
| `Filing.FilingDesk.SubmitOnce` | services/api/app/agent/tools/submit_filing.py:71-91 | nothing happens when an attempt has landed, otherwise one submission |
| `Filing.FilingDesk.RetryFiling` | services/api/app/admin/router.py:467-524 | submits whenever the draft is submittable, landed attempt or not |
| `Filing.Serve` | services/api/app/agent/filing_service.py:158-237 | the desk's methods take exactly the steps the run theorems speak of |
| `Filing.RowsOk` | services/api/app/agent/filing_service.py:158-237 | after any series of calls no row is pending, each shows its outcome, holds classes in 1..45 and is numbered by the rows before it |
| `Filing.AttemptNumbers` | services/api/app/agent/filing_service.py:82-91 | a draft's attempts on a platform are numbered exactly 1 to n, in order |
| `Filing.RowsStay` | services/api/app/agent/filing_service.py:188-196 | rows are only ever added |
| `Filing.SubmittedAtMostOnce` | services/api/app/payments/service.py:577-592 | as long as every call looks for a landed attempt first, a draft is submitted at most once |
| `Filing.FiledOnceIff` | services/api/app/admin/router.py:471-512 | over any series of calls, looking or not, a draft is filed at most once exactly when no call made after it was filed skips the look, finds it submittable and is taken by the office |
| `Filing.RetryFilesTwice` | services/api/app/admin/router.py:476-483 | a concrete retry that files twice, against the endpoint's description |
| `AdminFeed.EventCount` | services/api/app/admin/router.py:837-1038 | the length of the feed is the sum over the contributing rows of each source |
| `AdminFeed.FeedSaysExactly` | services/api/app/admin/router.py:837-1035 | an event is in the feed exactly when some row tells of it: kind by status, the row's own moment, and the case, number and client's address that the ids in the rows lead to |
| `AdminFeed.SortIsStable` | services/api/app/admin/router.py:1037 | newest first, ties in original order |
| `AdminFeed.StableOrderUnique` | services/api/app/admin/router.py:1037 | there is only one such order |
| `AdminFeed.FeedIgnoresRowOrderIff` | services/api/app/admin/router.py:817-1046 | the sorted feed is the same for every order in which the database may return the rows of its tables exactly when no two rows of one table contribute different events at one moment |
| `AdminFeed.NamedRowsTie` | services/api/app/admin/router.py:837-953 | for cases and payments, whose events name their row, that is exactly: no two rows have events at one moment |
| `AdminFeed.PagesCanDiffer` | services/api/app/admin/router.py:1037-1046 | two orders of the same two rows give different first pages, and across two requests one event twice and the other never |
| `AdminFeed.SameEvents` | services/api/app/admin/router.py:817-1035 | the same events are gathered whatever order the database returns rows in |
| `AdminFeed.PagesCover` | services/api/app/admin/router.py:1038-1046 | the pages one after the other give every event exactly once, in order |
| `AdminFeed.PageOfRank` | services/api/app/admin/router.py:1038-1046 | an event is on one page only, at a place given by its rank |
| `AdminFeed.LoadById` | services/api/app/admin/router.py:261-295 | a batch-loaded dictionary answers exactly like a look-up of each id asked for |
| `AdminFeed.LoadDrafts` | services/api/app/admin/router.py:900-970 | the two batches of drafts together serve every intent and every attempt |
| `AdminFeed.EventsOfCases` | services/api/app/admin/router.py:837-885 | one to three events a case, with the owner looked up directly |
| `AdminFeed.EventsOfIntents` | services/api/app/admin/router.py:911-953 | one event for each paid or refunded intent |
| `AdminFeed.EventsOfAttempts` | services/api/app/admin/router.py:971-1011 | one event for each finished attempt, none for the others |
| `AdminFeed.EventsOfReminders` | services/api/app/admin/router.py:1017-1035 | one event for each reminder |
| `AdminFeed.AnalyticsTimeline` | services/api/app/admin/router.py:802-1046 | a page of the feed is that page of all events with every join looked up directly, newest first; the total counts all of them |
| `AdminFeed.ListPayments` | services/api/app/admin/router.py:261-305 | each row of a page is what looking up its draft, owner and case one by one gives, and shows exactly their fields |
| `AdminFeed.RowShowsIff` | services/api/app/admin/router.py:179-219 | a payment row shows id, address and name of the user its draft names and id and number of the case its draft became, each empty exactly when there is none |

## Left out

- Crypto: SHA-256, HMAC, Poseidon, ed25519, pairing, batch pairing, point decompression and address derivation are unknown functions, because no source of theirs is here.
- Solana runtime: RPC, blockhashes, compute budgets, transaction assembly and fees. An instruction is one atomic step; bump fields and account sizes are not modelled.
- Token2022: metadata, rent, extension layouts and transfer hooks; the rules kept are authority checks, freezing, delegation, default-frozen accounts, supply and balance limits.
- ProofConversion.ConvertSnarkjsProof: does not say which of several faults is reported first beyond the two format checks, because the source only throws.
- VkLayout.Extractor.EmitKey: gives the emitted arrays as bytes; the Rust text they are printed as is not modelled, because the bytes are what the program uses.
- Hex.ReadHex: text is a sequence of characters, not UTF-16 units; the two differ only on characters no hexadecimal reader accepts.
- FileOwnership.UploadService.StoreUpload: files on disk, names, sizes and the widths of the other columns are not modelled; lower-casing is that of ASCII, which is all the pattern lets through.
- FileOwnership.UploadService.AttachOwnershipProof: the address arrives already parsed, and ownership of the row by the caller is taken for granted.
- TokenRefresh: the redirect to the login page, and promise micro-task order beyond "the shared promise is cleared before any waiter resumes"; all other orders are allowed.
- X402.DecodeRequest: base64 fields arrive decoded or not at all, because the strict decoder is a library's.
- X402.ChatService.Chat: audit records, explorer links and the `country_detected`, `language` and `model` columns; a database commit that fails after the reply.
- PythonInt.ReadIntText: Unicode digits and blanks and the 4300-digit limit of Python's integers; text is ASCII.
- Filing.FilingDesk.SubmitEutm: calls are serial, as in one database session; the width of the attempt number column.
- Filing.FilingDesk.SubmitOnce: the Stripe hook's row lock and metadata around the same look-up.
- AdminFeed.AnalyticsTimeline: event summaries, and the payload entries that follow from the row an event names (titles, amounts, mints); a reminder's channels; time zones: a moment is an integer.
- AdminFeed.ListPayments: the count, the filter and the order of the page are the database's.
- React pages, migrations, schemas, settings, logging, SDK clients, the agent loop, PDF and translation scripts: they would only add easy members.
