/** The seeds program-derived addresses are computed from. The runtime hashes their plain
    concatenation, so nothing but the bytes themselves keeps two kinds of record apart. */
module Seeds {
  import opened Bytes
  import opened Crypto

  const PROOF: Blob := [0x70, 0x72, 0x6f, 0x6f, 0x66]
  const BATCH: Blob := [0x62, 0x61, 0x74, 0x63, 0x68]
  const FILE_OWNERSHIP: Blob := [0x66, 0x69, 0x6c, 0x65, 0x2d, 0x6f, 0x77, 0x6e, 0x65, 0x72, 0x73, 0x68, 0x69, 0x70]
  const COMPLIANCE: Blob := [0x63, 0x6f, 0x6d, 0x70, 0x6c, 0x69, 0x61, 0x6e, 0x63, 0x65]

  const CASE_NFT: Blob := [0x63, 0x61, 0x73, 0x65, 0x5f, 0x6e, 0x66, 0x74]
  const CASE_NFT_AUTHORITY: Blob :=
    [0x63, 0x61, 0x73, 0x65, 0x5f, 0x6e, 0x66, 0x74, 0x5f, 0x61, 0x75, 0x74, 0x68, 0x6f, 0x72, 0x69, 0x74, 0x79]

  datatype Kind = Proof | Batch | Ownership | Compliance

  function Prefix(kind: Kind): Blob {
    match kind
    case Proof => PROOF
    case Batch => BATCH
    case Ownership => FILE_OWNERSHIP
    case Compliance => COMPLIANCE
  }

  /** Seeds of a verifier record: its kind, its user, and the digest or hash it is about. */
  function RecordSeeds(kind: Kind, user: Pubkey, digest: Bytes32): Blob {
    Prefix(kind) + user + digest
  }

  function CaseNftSeeds(caseId: Bytes16): Blob {
    CASE_NFT + caseId
  }

  /** No two verifier records share their seeds, not even once the runtime has appended a bump. */
  lemma RecordSeedsSeparate(kind: Kind, user: Pubkey, digest: Bytes32, bump: Byte, kind': Kind, user': Pubkey, digest': Bytes32, bump': Byte)
    requires RecordSeeds(kind, user, digest) + [bump] == RecordSeeds(kind', user', digest') + [bump']
    ensures kind == kind' && user == user' && digest == digest' && bump == bump'
  {
    var s, s' := RecordSeeds(kind, user, digest) + [bump], RecordSeeds(kind', user', digest') + [bump'];
    var p, p' := Prefix(kind), Prefix(kind');
    assert |s| == |p| + 65 && |s'| == |p'| + 65;
    assert s[0] == p[0] && s'[0] == p'[0];
    assert kind == kind';
    Cut(p, user, digest, bump);
    Cut(p', user', digest', bump');
  }

  lemma Cut(prefix: Blob, user: Pubkey, digest: Bytes32, bump: Byte)
    ensures var s := prefix + user + digest + [bump];
            var n := |prefix|;
            |s| == n + 65 && s[n..n + 32] == user && s[n + 32..n + 64] == digest && s[n + 64] == bump
  {
  }

  /** Case records have their own seeds, and none of them those of the mint authority. */
  lemma CaseNftSeedsSeparate(c: Bytes16, d: Bytes16, bump: Byte, bump': Byte)
    ensures CaseNftSeeds(c) + [bump] != CASE_NFT_AUTHORITY + [bump']
    ensures CaseNftSeeds(c) + [bump] == CaseNftSeeds(d) + [bump'] ==> c == d && bump == bump'
  {
    var s, t := CaseNftSeeds(c) + [bump], CaseNftSeeds(d) + [bump'];
    assert |s| == 25 && |CASE_NFT_AUTHORITY + [bump']| == 19;
    assert s[8..24] == c && t[8..24] == d && s[24] == bump && t[24] == bump';
  }

  function Ascii(text: string): Blob
    requires forall i :: 0 <= i < |text| ==> text[i] as int < 128
  {
    seq(|text|, i requires 0 <= i < |text| => text[i] as int)
  }

  /** The prefixes spell their names. */
  lemma SeedsSpellTheirNames()
    ensures PROOF == Ascii("proof") && BATCH == Ascii("batch")
    ensures FILE_OWNERSHIP == Ascii("file-ownership") && COMPLIANCE == Ascii("compliance")
    ensures CASE_NFT == Ascii("case_nft") && CASE_NFT_AUTHORITY == Ascii("case_nft_authority")
  {
  }
}
