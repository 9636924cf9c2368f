/** The case-NFT program: one soul-bound unit is issued per case and later burned. */
module IpToken {
  import opened Wrappers
  import opened Bytes
  import opened Crypto
  import opened Token2022

  datatype CaseNftRecord = CaseNftRecord(
    caseId: Bytes16,
    mint: Pubkey,
    clientWallet: Pubkey,
    operator: Pubkey,
    metadataUriHash: Bytes32,
    mintedAt: int,
    burnedAt: int)

  datatype Event =
    | CaseNftMinted(caseId: Bytes16, mint: Pubkey, clientWallet: Pubkey, operator: Pubkey, metadataUriHash: Bytes32, timestamp: int)
    | CaseNftBurned(caseId: Bytes16, mint: Pubkey, operator: Pubkey, timestamp: int)

  /** `authority` is the program's own address: it signs for the program and nobody holds its key.
      `issued` remembers which mints came from the setup sequence. */
  datatype State = State(
    authority: Pubkey,
    tokens: Tokens,
    records: map<Bytes16, CaseNftRecord>,
    clock: int,
    events: seq<Event>,
    issued: set<Pubkey>)

  datatype MintCall = MintCall(
    caseId: Bytes16, metadataUriHash: Bytes32, mint: Pubkey, account: Pubkey, client: Pubkey, operator: Pubkey, signers: set<Pubkey>)

  datatype BurnCall = BurnCall(
    caseId: Bytes16, mint: Pubkey, account: Pubkey, operator: Pubkey, signers: set<Pubkey>)

  datatype IpError = MissingSigner | AlreadyInUse | NotFound | ConstraintViolated | TokenProgram | AlreadyBurned

  // ---------------------------------------------------------------------
  // What the two instructions promise, seen as single steps
  // ---------------------------------------------------------------------

  /** The account constraints of `MintCaseNft`, and what the three token instructions need. */
  predicate CanMint(s: State, c: MintCall) {
    && c.client in c.signers && c.operator in c.signers
    && c.caseId !in s.records
    && c.mint in s.tokens.mints && c.account in s.tokens.accounts
    && var m, a := s.tokens.mints[c.mint], s.tokens.accounts[c.account];
    && m.mintAuthority == Some(s.authority) && m.freezeAuthority == Some(s.authority) && m.decimals == 0
    && a.mint == c.mint && a.owner == c.client
    && a.frozen && m.supply < U64_MAX && a.amount < U64_MAX
  }

  function AfterMint(s: State, c: MintCall): State
    requires CanMint(s, c)
  {
    var m, a := s.tokens.mints[c.mint], s.tokens.accounts[c.account];
    s.(tokens := Tokens(s.tokens.mints[c.mint := m.(supply := m.supply + 1)],
                        s.tokens.accounts[c.account := a.(amount := a.amount + 1)]),
       records := s.records[c.caseId := CaseNftRecord(c.caseId, c.mint, c.client, c.operator, c.metadataUriHash, s.clock, 0)],
       events := s.events + [CaseNftMinted(c.caseId, c.mint, c.client, c.operator, c.metadataUriHash, s.clock)])
  }

  /** The account constraints of `BurnCaseNft`: nothing ties the token account to the case's client. */
  predicate BurnAccountsMatch(s: State, c: BurnCall) {
    && c.operator in c.signers
    && c.caseId in s.records && s.records[c.caseId].mint == c.mint
    && c.mint in s.tokens.mints && c.account in s.tokens.accounts
    && var m := s.tokens.mints[c.mint];
    && m.mintAuthority == Some(s.authority) && m.freezeAuthority == Some(s.authority)
    && s.tokens.accounts[c.account].mint == c.mint
  }

  predicate CanBurn(s: State, c: BurnCall) {
    && BurnAccountsMatch(s, c)
    && s.records[c.caseId].burnedAt == 0
    && var m, a := s.tokens.mints[c.mint], s.tokens.accounts[c.account];
    && a.frozen && a.amount >= 1 && m.supply >= 1
    && MayMove(m, a, 1, s.authority)
  }

  function AfterBurn(s: State, c: BurnCall): State
    requires CanBurn(s, c)
  {
    var m, a := s.tokens.mints[c.mint], s.tokens.accounts[c.account];
    s.(tokens := Tokens(s.tokens.mints[c.mint := m.(supply := m.supply - 1)],
                        s.tokens.accounts[c.account := Debit(m, a.(frozen := false), 1, s.authority)]),
       records := s.records[c.caseId := s.records[c.caseId].(burnedAt := s.clock)],
       events := s.events + [CaseNftBurned(c.caseId, c.mint, c.operator, s.clock)])
  }

  /** Minting as the program does it: the account constraints, then thaw, mint and freeze as the mint's
      authority, any of which may fail. */
  lemma MintIsThreeInstructions(s: State, c: MintCall)
    ensures var thawed := Thaw(s.tokens, c.account, c.mint, s.authority);
            var minted := if thawed.None? then None else MintTo(thawed.value, c.mint, c.account, 1, s.authority);
            var refrozen := if minted.None? then None else Freeze(minted.value, c.account, c.mint, s.authority);
            && (CanMint(s, c) <==>
                  && {c.client, c.operator} <= c.signers && c.caseId !in s.records && refrozen.Some?
                  && s.tokens.mints[c.mint].decimals == 0 && s.tokens.accounts[c.account].owner == c.client)
            && (CanMint(s, c) ==> AfterMint(s, c).tokens == refrozen.value)
  {
    if CanMint(s, c) {
      var thawed := Thaw(s.tokens, c.account, c.mint, s.authority).value;
      var minted := MintTo(thawed, c.mint, c.account, 1, s.authority).value;
      assert Freeze(minted, c.account, c.mint, s.authority).value.accounts == AfterMint(s, c).tokens.accounts;
    }
  }

  /** Burning as the program does it: thaw as the freeze authority, then burn as the program itself, which
      needs its power as a delegate or owner of the account. */
  lemma BurnIsTwoInstructions(s: State, c: BurnCall)
    ensures var thawed := Thaw(s.tokens, c.account, c.mint, s.authority);
            var burned := if thawed.None? then None else Burn(thawed.value, c.account, c.mint, 1, s.authority);
            && (CanBurn(s, c) <==>
                  && c.operator in c.signers && c.caseId in s.records
                  && s.records[c.caseId].mint == c.mint && s.records[c.caseId].burnedAt == 0
                  && burned.Some? && s.tokens.mints[c.mint].mintAuthority == Some(s.authority))
            && (CanBurn(s, c) ==> AfterBurn(s, c).tokens == burned.value)
  {
    if CanBurn(s, c) {
      var thawed := Thaw(s.tokens, c.account, c.mint, s.authority).value;
      assert Burn(thawed, c.account, c.mint, 1, s.authority).value.accounts == AfterBurn(s, c).tokens.accounts;
    }
  }

  // ---------------------------------------------------------------------
  // The program
  // ---------------------------------------------------------------------

  class Program {
    const authority: Pubkey
    var tokens: Tokens
    var records: map<Bytes16, CaseNftRecord>
    var clock: int
    var events: seq<Event>
    ghost var issued: set<Pubkey>

    ghost function View(): State
      reads this
    {
      State(authority, tokens, records, clock, events, issued)
    }

    constructor (authority: Pubkey, clock: int)
      ensures View() == State(authority, Tokens(map[], map[]), map[], clock, [], {})
    {
      this.authority := authority;
      this.tokens := Tokens(map[], map[]);
      this.records := map[];
      this.clock := clock;
      this.events := [];
      this.issued := {};
    }

    /** Thaw, mint one unit, freeze again, then write the record. A failing token instruction
        rolls back everything before it. */
    method MintCaseNft(c: MintCall) returns (r: Result<(), IpError>)
      modifies this
      ensures r.Ok? <==> CanMint(old(View()), c)
      ensures View() == if r.Ok? then AfterMint(old(View()), c) else old(View())
    {
      if c.client !in c.signers || c.operator !in c.signers {
        return Err(MissingSigner);
      }
      if c.caseId in records {
        return Err(AlreadyInUse);
      }
      if c.mint !in tokens.mints || c.account !in tokens.accounts {
        return Err(NotFound);
      }
      var mint, account := tokens.mints[c.mint], tokens.accounts[c.account];
      if mint.mintAuthority != Some(authority) || mint.freezeAuthority != Some(authority) || mint.decimals != 0
         || account.mint != c.mint || account.owner != c.client {
        return Err(ConstraintViolated);
      }
      var before := tokens;
      var thawed := Thaw(tokens, c.account, c.mint, authority);
      if thawed.None? {
        return Err(TokenProgram);
      }
      tokens := thawed.value;
      var minted := MintTo(tokens, c.mint, c.account, 1, authority);
      if minted.None? {
        tokens := before;
        return Err(TokenProgram);
      }
      tokens := minted.value;
      var refrozen := Freeze(tokens, c.account, c.mint, authority);
      if refrozen.None? {
        tokens := before;
        return Err(TokenProgram);
      }
      tokens := refrozen.value;
      assert tokens.accounts == before.accounts[c.account := account.(amount := account.amount + 1)];
      records := records[c.caseId := CaseNftRecord(c.caseId, c.mint, c.client, c.operator, c.metadataUriHash, clock, 0)];
      events := events + [CaseNftMinted(c.caseId, c.mint, c.client, c.operator, c.metadataUriHash, clock)];
      return Ok(());
    }

    /** Thaw the account, burn one unit as the mint's permanent delegate, and date the record.
        The account is left thawed. */
    method BurnCaseNft(c: BurnCall) returns (r: Result<(), IpError>)
      modifies this
      ensures r.Ok? <==> CanBurn(old(View()), c)
      ensures r == Err(AlreadyBurned) <==> BurnAccountsMatch(old(View()), c) && old(View()).records[c.caseId].burnedAt != 0
      ensures View() == if r.Ok? then AfterBurn(old(View()), c) else old(View())
    {
      if c.operator !in c.signers {
        return Err(MissingSigner);
      }
      if c.caseId !in records || c.mint !in tokens.mints || c.account !in tokens.accounts {
        return Err(NotFound);
      }
      var mint, account := tokens.mints[c.mint], tokens.accounts[c.account];
      if records[c.caseId].mint != c.mint || mint.mintAuthority != Some(authority)
         || mint.freezeAuthority != Some(authority) || account.mint != c.mint {
        return Err(ConstraintViolated);
      }
      if records[c.caseId].burnedAt != 0 {
        return Err(AlreadyBurned);
      }
      var before := tokens;
      var thawed := Thaw(tokens, c.account, c.mint, authority);
      if thawed.None? {
        return Err(TokenProgram);
      }
      tokens := thawed.value;
      var burned := Burn(tokens, c.account, c.mint, 1, authority);
      if burned.None? {
        tokens := before;
        return Err(TokenProgram);
      }
      tokens := burned.value;
      assert tokens.accounts == before.accounts[c.account := Debit(mint, account.(frozen := false), 1, authority)];
      records := records[c.caseId := records[c.caseId].(burnedAt := clock)];
      events := events + [CaseNftBurned(c.caseId, c.mint, c.operator, clock)];
      return Ok(());
    }
  }

  // ---------------------------------------------------------------------
  // Runs: the two instructions, the setup sequence, and everybody else
  // ---------------------------------------------------------------------

  datatype Step =
    | SetupMint(mint: Pubkey, payer: Pubkey)
    | MintCaseNft(mintCall: MintCall)
    | BurnCaseNft(burnCall: BurnCall)
    | HolderCloses(account: Pubkey, signer: Pubkey)
    | HolderTransfers(from: Pubkey, to: Pubkey, amount: nat, signer: Pubkey)
    | HolderBurns(account: Pubkey, mint: Pubkey, amount: nat, signer: Pubkey)
    | HolderApproves(account: Pubkey, delegate: Option<Pubkey>, allowance: nat, signer: Pubkey)
    | HolderSetsOwner(account: Pubkey, owner: Pubkey, signer: Pubkey)
    | AnyoneOpensAccount(account: Pubkey, mint: Pubkey, owner: Pubkey)
    | AnyoneInitsMint(mint: Pubkey, config: Mint)
    | AuthorityMints(mint: Pubkey, account: Pubkey, amount: nat, signer: Pubkey)
    | AuthorityFreezes(account: Pubkey, mint: Pubkey, signer: Pubkey)
    | AuthorityThaws(account: Pubkey, mint: Pubkey, signer: Pubkey)
    | AuthorityHandsOverMinting(mint: Pubkey, next: Option<Pubkey>, signer: Pubkey)
    | AuthorityHandsOverFreezing(mint: Pubkey, next: Option<Pubkey>, signer: Pubkey)
    | ClockTicks(elapsed: nat)

  /** One transaction: create the mint with the payer as both authorities, the program as permanent
      delegate and accounts frozen by default, then hand both authorities to the program. */
  function Setup(t: Tokens, authority: Pubkey, mint: Pubkey, payer: Pubkey): Option<Tokens> {
    match InitMint(t, mint, Mint(Some(payer), Some(payer), Some(authority), true, 0, 0))
    case None => None
    case Some(t1) =>
      match SetMintAuthority(t1, mint, Some(authority), payer)
      case None => None
      case Some(t2) => SetFreezeAuthority(t2, mint, Some(authority), payer)
  }

  /** Keys that sign the step (a new mint's fresh keypair signs its own creation); the program's own
      address cannot be among them. */
  function Signers(step: Step): set<Pubkey> {
    match step
    case SetupMint(mint, payer) => {mint, payer}
    case MintCaseNft(c) => c.signers
    case BurnCaseNft(c) => c.signers
    case HolderCloses(_, signer) => {signer}
    case HolderTransfers(_, _, _, signer) => {signer}
    case HolderBurns(_, _, _, signer) => {signer}
    case HolderApproves(_, _, _, signer) => {signer}
    case HolderSetsOwner(_, _, signer) => {signer}
    case AnyoneInitsMint(mint, _) => {mint}
    case AuthorityMints(_, _, _, signer) => {signer}
    case AuthorityFreezes(_, _, signer) => {signer}
    case AuthorityThaws(_, _, signer) => {signer}
    case AuthorityHandsOverMinting(_, _, signer) => {signer}
    case AuthorityHandsOverFreezing(_, _, signer) => {signer}
    case _ => {}
  }

  /** What the Token-2022 program makes of a step that does not go through the case-NFT program. */
  function TokenStep(t: Tokens, step: Step): Option<Tokens> {
    match step
    case HolderCloses(account, signer) => CloseAccount(t, account, signer)
    case HolderTransfers(from, to, amount, signer) => Transfer(t, from, to, amount, signer)
    case HolderBurns(account, mint, amount, signer) => Burn(t, account, mint, amount, signer)
    case HolderApproves(account, delegate, allowance, signer) => Approve(t, account, delegate, allowance, signer)
    case HolderSetsOwner(account, owner, signer) => SetOwner(t, account, owner, signer)
    case AnyoneOpensAccount(account, mint, owner) => OpenAccount(t, account, mint, owner)
    case AnyoneInitsMint(mint, config) => InitMint(t, mint, config)
    case AuthorityMints(mint, account, amount, signer) => MintTo(t, mint, account, amount, signer)
    case AuthorityFreezes(account, mint, signer) => Freeze(t, account, mint, signer)
    case AuthorityThaws(account, mint, signer) => Thaw(t, account, mint, signer)
    case AuthorityHandsOverMinting(mint, next, signer) => SetMintAuthority(t, mint, next, signer)
    case AuthorityHandsOverFreezing(mint, next, signer) => SetFreezeAuthority(t, mint, next, signer)
    case _ => None
  }

  function Next(s: State, step: Step): State {
    if s.authority in Signers(step) then s
    else
      match step
      case SetupMint(mint, payer) =>
        (match Setup(s.tokens, s.authority, mint, payer)
         case None => s
         case Some(t) => s.(tokens := t, issued := s.issued + {mint}))
      case MintCaseNft(c) => if CanMint(s, c) then AfterMint(s, c) else s
      case BurnCaseNft(c) => if CanBurn(s, c) then AfterBurn(s, c) else s
      case ClockTicks(elapsed) => s.(clock := s.clock + elapsed)
      case _ =>
        match TokenStep(s.tokens, step)
        case None => s
        case Some(t) => s.(tokens := t)
  }

  function Run(s: State, steps: seq<Step>): State
    decreases |steps|
  {
    if steps == [] then s else Next(Run(s, steps[..|steps| - 1]), steps[|steps| - 1])
  }

  /** What an observer of the event log makes of one entry. */
  function Observe(records: map<Bytes16, CaseNftRecord>, e: Event): map<Bytes16, CaseNftRecord> {
    match e
    case CaseNftMinted(c, mint, client, operator, hash, time) =>
      records[c := CaseNftRecord(c, mint, client, operator, hash, time, 0)]
    case CaseNftBurned(c, _, _, time) =>
      if c in records then records[c := records[c].(burnedAt := time)] else records
  }

  /** The records the observer arrives at. */
  function Replay(events: seq<Event>): map<Bytes16, CaseNftRecord> {
    if events == [] then map[] else Observe(Replay(events[..|events| - 1]), events[|events| - 1])
  }

  /** Nothing created yet, and the clock past the epoch (`burnedAt == 0` marks a live record). */
  predicate Initial(s: State) {
    s.tokens == Tokens(map[], map[]) && s.records == map[] && s.clock > 0 && s.events == [] && s.issued == {}
  }
}
