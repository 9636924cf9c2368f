/** What every run of the case-NFT program keeps, whatever holders and strangers do in between. */
module SoulBound {
  import opened Wrappers
  import opened Bytes
  import opened Crypto
  import opened MapSum
  import opened Token2022
  import opened IpToken

  // ---------------------------------------------------------------------
  // Definitions
  // ---------------------------------------------------------------------

  /** The mint still looks the way the setup sequence left it, supply aside. */
  predicate Locked(s: State, mint: Pubkey) {
    && mint in s.tokens.mints
    && var m := s.tokens.mints[mint];
    && m.mintAuthority == Some(s.authority) && m.freezeAuthority == Some(s.authority)
    && m.permanentDelegate == Some(s.authority) && m.startsFrozen && m.decimals == 0
  }

  /** No two cases share the mint. */
  ghost predicate SingleUse(s: State, mint: Pubkey) {
    forall c, d :: c in s.records && d in s.records && s.records[c].mint == mint && s.records[d].mint == mint ==> c == d
  }

  function LiveFor(mint: Pubkey): CaseNftRecord -> nat {
    (r: CaseNftRecord) => if r.mint == mint && r.burnedAt == 0 then 1 else 0
  }

  /** Unburned records naming the mint. */
  ghost function Live(s: State, mint: Pubkey): nat {
    Sum(s.records, LiveFor(mint))
  }

  predicate Holds(t: Tokens, account: Pubkey, mint: Pubkey) {
    account in t.accounts && t.accounts[account].mint == mint && t.accounts[account].amount > 0
  }

  ghost predicate HoldersFrozen(t: Tokens, mint: Pubkey) {
    forall k :: Holds(t, k, mint) ==> t.accounts[k].frozen
  }

  ghost predicate OwnedByLiveClient(s: State, account: Pubkey)
    requires account in s.tokens.accounts
  {
    exists c :: c in s.records && s.records[c].burnedAt == 0 && s.records[c].mint == s.tokens.accounts[account].mint
                && s.records[c].clientWallet == s.tokens.accounts[account].owner
  }

  ghost predicate Bound(s: State, mint: Pubkey)
    requires mint in s.tokens.mints
  {
    && s.tokens.mints[mint].supply == Circulating(s.tokens, mint) == Live(s, mint) <= 1
    && HoldersFrozen(s.tokens, mint)
    && (forall k :: Holds(s.tokens, k, mint) ==> OwnedByLiveClient(s, k))
  }

  ghost predicate Inv(s: State) {
    && s.clock > 0
    && Conserved(s.tokens)
    && (forall c :: c in s.records ==> s.records[c].caseId == c && s.records[c].mint in s.tokens.mints)
    && (forall m :: m in s.issued ==> Locked(s, m))
    && (forall m :: m in s.issued && SingleUse(s, m) ==> Bound(s, m))
  }

  // ---------------------------------------------------------------------
  // Conservation
  // ---------------------------------------------------------------------

  /** Replacing one account and the supply of its mint by the same difference conserves everything. */
  lemma ConservedReplace(t: Tokens, k: Pubkey, a: Account, supply: nat)
    requires Conserved(t) && k in t.accounts
    requires a.mint == t.accounts[k].mint
    requires supply + t.accounts[k].amount == t.mints[a.mint].supply + a.amount
    ensures Conserved(Tokens(t.mints[a.mint := t.mints[a.mint].(supply := supply)], t.accounts[k := a]))
  {
    var t' := Tokens(t.mints[a.mint := t.mints[a.mint].(supply := supply)], t.accounts[k := a]);
    forall m | m in t'.mints
      ensures t'.mints[m].supply == Circulating(t', m)
    {
      SumReplace(t.accounts, AmountIn(m), k, a);
    }
  }

  lemma ConservedSameAmount(t: Tokens, k: Pubkey, a: Account)
    requires Conserved(t) && k in t.accounts
    requires a.mint == t.accounts[k].mint && a.amount == t.accounts[k].amount
    ensures Conserved(t.(accounts := t.accounts[k := a]))
  {
    ConservedReplace(t, k, a, t.mints[a.mint].supply);
    assert t.mints[a.mint := t.mints[a.mint].(supply := t.mints[a.mint].supply)] == t.mints;
  }

  /** A transfer between two accounts of one mint moves no weight of any mint. */
  lemma CirculatingMove(t: Tokens, from: Pubkey, a: Account, to: Pubkey, b: Account, m: Pubkey)
    requires from in t.accounts && to in t.accounts && from != to
    requires a.mint == t.accounts[from].mint == b.mint == t.accounts[to].mint
    requires a.amount + b.amount == t.accounts[from].amount + t.accounts[to].amount
    ensures Circulating(t.(accounts := t.accounts[from := a][to := b]), m) == Circulating(t, m)
  {
    SumMove(t.accounts, AmountIn(m), from, a, to, b);
  }

  lemma ConservedMove(t: Tokens, from: Pubkey, a: Account, to: Pubkey, b: Account)
    requires Conserved(t) && from in t.accounts && to in t.accounts && from != to
    requires a.mint == t.accounts[from].mint == b.mint == t.accounts[to].mint
    requires a.amount + b.amount == t.accounts[from].amount + t.accounts[to].amount
    ensures Conserved(t.(accounts := t.accounts[from := a][to := b]))
  {
    forall m | m in t.mints
      ensures Circulating(t.(accounts := t.accounts[from := a][to := b]), m) == t.mints[m].supply
    {
      CirculatingMove(t, from, a, to, b, m);
    }
  }

  lemma ConservedNewMint(t: Tokens, mint: Pubkey, config: Mint)
    requires Conserved(t) && InitMint(t, mint, config).Some?
    ensures Conserved(InitMint(t, mint, config).value)
  {
    var t' := InitMint(t, mint, config).value;
    forall m | m in t'.mints
      ensures t'.mints[m].supply == Circulating(t', m)
    {
      if m == mint {
        SumZero(t.accounts, AmountIn(mint));
      }
    }
  }

  lemma ConservedAccounts(t: Tokens, step: Step)
    requires Conserved(t) && TokenStep(t, step).Some?
    requires step.HolderCloses? || step.AnyoneOpensAccount?
    ensures Conserved(TokenStep(t, step).value)
  {
    var t' := TokenStep(t, step).value;
    forall m | m in t'.mints
      ensures t'.mints[m].supply == Circulating(t', m)
    {
      match step
      case HolderCloses(k, _) => SumRemove(t.accounts, AmountIn(m), k);
      case AnyoneOpensAccount(k, mint, owner) => SumInsert(t.accounts, AmountIn(m), k, t'.accounts[k]);
    }
  }

  /** In every Token-2022 step, supply stays the sum of what the accounts hold. */
  lemma ConservedStep(t: Tokens, step: Step)
    requires Conserved(t) && TokenStep(t, step).Some?
    ensures Conserved(TokenStep(t, step).value)
  {
    var t' := TokenStep(t, step).value;
    match step {
      case HolderTransfers(from, to, _, _) =>
        if from != to {
          ConservedMove(t, from, t'.accounts[from], to, t'.accounts[to]);
          assert t' == t.(accounts := t.accounts[from := t'.accounts[from]][to := t'.accounts[to]]);
        }
      case AnyoneInitsMint(mint, config) => ConservedNewMint(t, mint, config);
      case HolderBurns(k, mint, _, _) => ConservedReplace(t, k, t'.accounts[k], t'.mints[mint].supply);
      case AuthorityMints(mint, k, _, _) => ConservedReplace(t, k, t'.accounts[k], t'.mints[mint].supply);
      case HolderApproves(k, _, _, _) => ConservedSameAmount(t, k, t'.accounts[k]);
      case HolderSetsOwner(k, _, _) => ConservedSameAmount(t, k, t'.accounts[k]);
      case AuthorityFreezes(k, _, _) => ConservedSameAmount(t, k, t'.accounts[k]);
      case AuthorityThaws(k, _, _) => ConservedSameAmount(t, k, t'.accounts[k]);
      case HolderCloses(_, _) => ConservedAccounts(t, step);
      case AnyoneOpensAccount(_, _, _) => ConservedAccounts(t, step);
      case _ =>
    }
  }

  // ---------------------------------------------------------------------
  // Steps that do not go through the program
  // ---------------------------------------------------------------------

  /** Nobody outside the program can move, thaw, mint or burn a unit of a locked mint whose holders are frozen. */
  lemma StrangersCannotTouch(s: State, step: Step, m: Pubkey)
    requires Locked(s, m) && HoldersFrozen(s.tokens, m)
    requires s.authority !in Signers(step) && TokenStep(s.tokens, step).Some?
    ensures var t' := TokenStep(s.tokens, step).value;
            && m in t'.mints && t'.mints[m] == s.tokens.mints[m]
            && forall k :: Holds(t', k, m) ==> Holds(s.tokens, k, m) && t'.accounts[k] == s.tokens.accounts[k]
  {
  }

  /** A step that leaves a mint's holders, supply and records alone leaves it bound. */
  lemma BoundFrame(s: State, s': State, m: Pubkey)
    requires m in s.tokens.mints && Bound(s, m)
    requires m in s'.tokens.mints && s'.tokens.mints[m].supply == s.tokens.mints[m].supply
    requires Conserved(s'.tokens)
    requires Live(s', m) == Live(s, m)
    requires forall k :: Holds(s'.tokens, k, m) ==> Holds(s.tokens, k, m) && s'.tokens.accounts[k] == s.tokens.accounts[k]
    requires forall c :: c in s.records && s.records[c].mint == m ==> c in s'.records && s'.records[c] == s.records[c]
    ensures Bound(s', m)
  {
    forall k | Holds(s'.tokens, k, m)
      ensures OwnedByLiveClient(s', k)
    {
      assert OwnedByLiveClient(s, k);
      var c :| c in s.records && s.records[c].burnedAt == 0 && s.records[c].mint == m
               && s.records[c].clientWallet == s.tokens.accounts[k].owner;
      assert s'.records[c] == s.records[c];
    }
  }

  lemma InvTokenStep(s: State, step: Step)
    requires Inv(s) && s.authority !in Signers(step) && TokenStep(s.tokens, step).Some?
    ensures Inv(s.(tokens := TokenStep(s.tokens, step).value))
  {
    var s' := s.(tokens := TokenStep(s.tokens, step).value);
    ConservedStep(s.tokens, step);
    forall m | m in s'.issued
      ensures Locked(s', m) && (SingleUse(s', m) ==> Bound(s', m))
    {
      IssuedMintKept(s, step, m);
    }
  }

  lemma IssuedMintKept(s: State, step: Step, m: Pubkey)
    requires Inv(s) && m in s.issued && s.authority !in Signers(step)
    requires TokenStep(s.tokens, step).Some? && Conserved(TokenStep(s.tokens, step).value)
    ensures var s' := s.(tokens := TokenStep(s.tokens, step).value); Locked(s', m) && (SingleUse(s', m) ==> Bound(s', m))
  {
    var s' := s.(tokens := TokenStep(s.tokens, step).value);
    LockedKept(s, step, m);
    if SingleUse(s', m) {
      assert SingleUse(s, m);
      StrangersCannotTouch(s, step, m);
      BoundFrame(s, s', m);
    }
  }

  lemma LockedKept(s: State, step: Step, m: Pubkey)
    requires Locked(s, m) && s.authority !in Signers(step) && TokenStep(s.tokens, step).Some?
    ensures Locked(s.(tokens := TokenStep(s.tokens, step).value), m)
  {
  }

  // ---------------------------------------------------------------------
  // Steps of the program
  // ---------------------------------------------------------------------

  lemma InvSetup(s: State, mint: Pubkey, payer: Pubkey)
    requires Inv(s) && payer != s.authority && Setup(s.tokens, s.authority, mint, payer).Some?
    requires mint != s.authority
    ensures Inv(Next(s, SetupMint(mint, payer)))
  {
    var s' := Next(s, SetupMint(mint, payer));
    var config := Mint(Some(s.authority), Some(s.authority), Some(s.authority), true, 0, 0);
    assert s'.tokens == s.tokens.(mints := s.tokens.mints[mint := config]);
    ConservedNewMint(s.tokens, mint, config);
    forall m | m in s'.issued
      ensures Locked(s', m) && (SingleUse(s', m) ==> Bound(s', m))
    {
      if m == mint {
        SumZero(s.records, LiveFor(m));
      } else if SingleUse(s', m) {
        assert SingleUse(s, m);
        BoundFrame(s, s', m);
      }
    }
  }

  /** What minting does to a mint other than the one it names. */
  lemma OtherMintAfterMint(s: State, c: MintCall, m: Pubkey)
    requires CanMint(s, c) && m in s.tokens.mints && Bound(s, m) && m != c.mint
    requires Conserved(AfterMint(s, c).tokens)
    ensures Bound(AfterMint(s, c), m)
  {
    var s' := AfterMint(s, c);
    SumInsert(s.records, LiveFor(m), c.caseId, s'.records[c.caseId]);
    BoundFrame(s, s', m);
  }

  lemma SingleUseBeforeMint(s: State, c: MintCall, m: Pubkey)
    requires CanMint(s, c) && SingleUse(AfterMint(s, c), m)
    ensures SingleUse(s, m)
    ensures m == c.mint ==> forall d :: d in s.records ==> s.records[d].mint != m
  {
    var s' := AfterMint(s, c);
    assert s'.records[c.caseId].mint == c.mint;
    assert forall d :: d in s.records ==> d != c.caseId && s'.records[d] == s.records[d];
  }

  /** A single-use mint had no record and no unit before the case was minted. */
  lemma OwnMintAfterMint(s: State, c: MintCall)
    requires CanMint(s, c) && Bound(s, c.mint) && SingleUse(AfterMint(s, c), c.mint)
    requires Conserved(AfterMint(s, c).tokens)
    ensures Bound(AfterMint(s, c), c.mint)
  {
    var s', m := AfterMint(s, c), c.mint;
    SingleUseBeforeMint(s, c, m);
    SumZero(s.records, LiveFor(m));
    SumZero(s.tokens.accounts, AmountIn(m));
    assert forall k :: k in s.tokens.accounts ==> AmountIn(m)(s.tokens.accounts[k]) == 0;
    assert forall k :: !Holds(s.tokens, k, m);
    SumInsert(s.records, LiveFor(m), c.caseId, s'.records[c.caseId]);
    forall k | Holds(s'.tokens, k, m)
      ensures OwnedByLiveClient(s', k) && s'.tokens.accounts[k].frozen
    {
      assert k == c.account;
      assert s'.records[c.caseId].clientWallet == s'.tokens.accounts[k].owner;
    }
  }

  lemma ConservedMint(s: State, c: MintCall)
    requires Conserved(s.tokens) && CanMint(s, c)
    ensures Conserved(AfterMint(s, c).tokens)
  {
    var s' := AfterMint(s, c);
    ConservedReplace(s.tokens, c.account, s'.tokens.accounts[c.account], s'.tokens.mints[c.mint].supply);
  }

  lemma SafeAfterMint(s: State, c: MintCall, m: Pubkey)
    requires Inv(s) && CanMint(s, c) && m in s.issued && SingleUse(AfterMint(s, c), m)
    ensures Bound(AfterMint(s, c), m)
  {
    ConservedMint(s, c);
    SingleUseBeforeMint(s, c, m);
    assert Bound(s, m);
    if m == c.mint {
      OwnMintAfterMint(s, c);
    } else {
      OtherMintAfterMint(s, c, m);
    }
  }

  lemma LockedAfterMint(s: State, c: MintCall, m: Pubkey)
    requires CanMint(s, c) && Locked(s, m)
    ensures Locked(AfterMint(s, c), m)
  {
  }

  lemma InvMint(s: State, c: MintCall)
    requires Inv(s) && CanMint(s, c)
    ensures Inv(AfterMint(s, c))
  {
    var s' := AfterMint(s, c);
    ConservedMint(s, c);
    forall m | m in s'.issued
      ensures Locked(s', m)
    {
      LockedAfterMint(s, c, m);
    }
    forall m | m in s'.issued && SingleUse(s', m)
      ensures Bound(s', m)
    {
      SafeAfterMint(s, c, m);
    }
  }

  lemma OtherMintAfterBurn(s: State, c: BurnCall, m: Pubkey)
    requires CanBurn(s, c) && m in s.tokens.mints && Bound(s, m) && m != c.mint
    requires Conserved(AfterBurn(s, c).tokens)
    ensures Bound(AfterBurn(s, c), m)
  {
    var s' := AfterBurn(s, c);
    SumReplace(s.records, LiveFor(m), c.caseId, s'.records[c.caseId]);
    BoundFrame(s, s', m);
  }

  lemma OwnMintAfterBurn(s: State, c: BurnCall)
    requires s.clock > 0 && CanBurn(s, c) && Bound(s, c.mint) && SingleUse(s, c.mint)
    requires Conserved(AfterBurn(s, c).tokens)
    ensures Bound(AfterBurn(s, c), c.mint)
    ensures s.tokens.accounts[c.account].amount == 1 && AfterBurn(s, c).tokens.mints[c.mint].supply == 0
    ensures s.tokens.accounts[c.account].owner == s.records[c.caseId].clientWallet
  {
    var s', m := AfterBurn(s, c), c.mint;
    SumReplace(s.records, LiveFor(m), c.caseId, s'.records[c.caseId]);
    SumRemove(s.tokens.accounts, AmountIn(m), c.account);
    SumZero(s'.tokens.accounts, AmountIn(m));
    assert forall k :: k in s'.tokens.accounts ==> AmountIn(m)(s'.tokens.accounts[k]) == 0;
    assert forall k :: !Holds(s'.tokens, k, m);
    assert Holds(s.tokens, c.account, m);
    assert OwnedByLiveClient(s, c.account);
  }

  lemma InvBurn(s: State, c: BurnCall)
    requires Inv(s) && CanBurn(s, c)
    ensures Inv(AfterBurn(s, c))
  {
    var s' := AfterBurn(s, c);
    ConservedReplace(s.tokens, c.account, s'.tokens.accounts[c.account], s'.tokens.mints[c.mint].supply);
    forall m | m in s'.issued && SingleUse(s', m)
      ensures Bound(s', m)
    {
      SingleUseBeforeBurn(s, c, m);
      if m == c.mint {
        OwnMintAfterBurn(s, c);
      } else {
        OtherMintAfterBurn(s, c, m);
      }
    }
  }

  lemma SingleUseBeforeBurn(s: State, c: BurnCall, m: Pubkey)
    requires CanBurn(s, c) && SingleUse(AfterBurn(s, c), m)
    ensures SingleUse(s, m)
  {
    var s' := AfterBurn(s, c);
    forall d, e | d in s.records && e in s.records && s.records[d].mint == m && s.records[e].mint == m
      ensures d == e
    {
      assert s'.records[d].mint == m && s'.records[e].mint == m;
    }
  }

  // ---------------------------------------------------------------------
  // Runs
  // ---------------------------------------------------------------------

  lemma InvNext(s: State, step: Step)
    requires Inv(s)
    ensures Inv(Next(s, step))
  {
    if s.authority !in Signers(step) {
      match step
      case SetupMint(mint, payer) =>
        if Setup(s.tokens, s.authority, mint, payer).Some? {
          InvSetup(s, mint, payer);
        }
      case MintCaseNft(c) =>
        if CanMint(s, c) {
          InvMint(s, c);
        }
      case BurnCaseNft(c) =>
        if CanBurn(s, c) {
          InvBurn(s, c);
        }
      case ClockTicks(elapsed) => InvTick(s, elapsed);
      case _ =>
        if TokenStep(s.tokens, step).Some? {
          InvTokenStep(s, step);
        }
    }
  }

  lemma InvTick(s: State, elapsed: nat)
    requires Inv(s)
    ensures Inv(s.(clock := s.clock + elapsed))
  {
    var s' := s.(clock := s.clock + elapsed);
    forall m | m in s'.issued && SingleUse(s', m)
      ensures Bound(s', m)
    {
      assert SingleUse(s, m);
      BoundFrame(s, s', m);
    }
  }

  lemma {:induction false} InvRun(s: State, steps: seq<Step>)
    requires Inv(s)
    ensures Inv(Run(s, steps))
    decreases |steps|
  {
    if steps != [] {
      InvRun(s, steps[..|steps| - 1]);
      InvNext(Run(s, steps[..|steps| - 1]), steps[|steps| - 1]);
    }
  }

  /** Soul-bound safety, for every run from the beginning and every mint made by the setup sequence
      and used for one case: supply, the sum of the balances and the number of unburned records of
      the mint agree and are at most one, and whoever holds the unit is frozen and is the client. */
  lemma SoulBoundAlways(s: State, steps: seq<Step>, mint: Pubkey)
    requires Initial(s)
    requires mint in Run(s, steps).issued && SingleUse(Run(s, steps), mint)
    ensures mint in Run(s, steps).tokens.mints && Bound(Run(s, steps), mint)
  {
    InvRun(s, steps);
  }

  /** For every mint of every run, the supply is what the accounts hold. */
  lemma SupplyIsConserved(s: State, steps: seq<Step>, mint: Pubkey)
    requires Initial(s) && mint in Run(s, steps).tokens.mints
    ensures Run(s, steps).tokens.mints[mint].supply == Circulating(Run(s, steps).tokens, mint)
  {
    InvRun(s, steps);
  }

  /** A successful burn takes the one unit there is, out of the recorded client's account. */
  lemma BurnTakesTheUnit(s: State, steps: seq<Step>, c: BurnCall)
    requires Initial(s)
    requires var t := Run(s, steps); CanBurn(t, c) && c.mint in t.issued && SingleUse(t, c.mint)
    ensures var t := Run(s, steps);
            && t.tokens.accounts[c.account].amount == 1
            && t.tokens.accounts[c.account].owner == t.records[c.caseId].clientWallet
            && AfterBurn(t, c).records[c.caseId].burnedAt > 0
            && AfterBurn(t, c).tokens.mints[c.mint].supply == 0
            && forall k :: !Holds(AfterBurn(t, c).tokens, k, c.mint)
  {
    var t := Run(s, steps);
    InvRun(s, steps);
    InvBurn(t, c);
    var u := AfterBurn(t, c);
    ConservedReplace(t.tokens, c.account, u.tokens.accounts[c.account], u.tokens.mints[c.mint].supply);
    OwnMintAfterBurn(t, c);
    SumZero(u.tokens.accounts, AmountIn(c.mint));
    assert forall k :: k in u.tokens.accounts ==> AmountIn(c.mint)(u.tokens.accounts[k]) == 0;
  }

  /** Nothing a holder or a stranger does can stop a live case from being burned: some account can
      always be named for which the instruction succeeds. */
  lemma BurnStaysPossible(s: State, steps: seq<Step>, caseId: Bytes16, operator: Pubkey) returns (account: Pubkey)
    requires Initial(s)
    requires var t := Run(s, steps);
             caseId in t.records && t.records[caseId].burnedAt == 0
             && t.records[caseId].mint in t.issued && SingleUse(t, t.records[caseId].mint)
    ensures var t := Run(s, steps);
            CanBurn(t, BurnCall(caseId, t.records[caseId].mint, account, operator, {operator}))
  {
    var t := Run(s, steps);
    InvRun(s, steps);
    account := HolderOfLiveCase(t, caseId);
  }

  lemma HolderOfLiveCase(s: State, caseId: Bytes16) returns (account: Pubkey)
    requires caseId in s.records && s.records[caseId].burnedAt == 0
    requires s.records[caseId].mint in s.tokens.mints && Bound(s, s.records[caseId].mint)
    ensures Holds(s.tokens, account, s.records[caseId].mint)
    ensures s.tokens.accounts[account].frozen && s.tokens.mints[s.records[caseId].mint].supply == 1
  {
    var mint := s.records[caseId].mint;
    SumRemove(s.records, LiveFor(mint), caseId);
    assert Live(s, mint) == 1;
    SumZero(s.tokens.accounts, AmountIn(mint));
    account :| account in s.tokens.accounts && AmountIn(mint)(s.tokens.accounts[account]) != 0;
    assert Holds(s.tokens, account, mint);
  }

  // ---------------------------------------------------------------------
  // A mint shared by several cases
  // ---------------------------------------------------------------------

  /** Burning keeps every holder frozen exactly when the account named holds a single unit. */
  lemma BurnKeepsFrozenIff(s: State, c: BurnCall)
    requires CanBurn(s, c) && HoldersFrozen(s.tokens, c.mint)
    ensures HoldersFrozen(AfterBurn(s, c).tokens, c.mint) <==> s.tokens.accounts[c.account].amount == 1
  {
    var t := AfterBurn(s, c).tokens;
    assert Holds(t, c.account, c.mint) <==> s.tokens.accounts[c.account].amount > 1;
    assert forall k :: k != c.account && Holds(t, k, c.mint) ==> Holds(s.tokens, k, c.mint);
  }

  ghost predicate BurnsUnit(s: State, step: Step, mint: Pubkey) {
    step.BurnCaseNft? && s.authority !in Signers(step) && CanBurn(s, step.burnCall) && step.burnCall.mint == mint
    ==> s.tokens.accounts[step.burnCall.account].amount == 1
  }

  lemma BurnStepFrozenIff(s: State, c: BurnCall, mint: Pubkey)
    requires CanBurn(s, c) && HoldersFrozen(s.tokens, mint)
    ensures HoldersFrozen(AfterBurn(s, c).tokens, mint) <==> (c.mint == mint ==> s.tokens.accounts[c.account].amount == 1)
  {
    if c.mint == mint {
      BurnKeepsFrozenIff(s, c);
    } else {
      assert forall k :: Holds(AfterBurn(s, c).tokens, k, mint) ==> k != c.account && Holds(s.tokens, k, mint);
    }
  }

  lemma MintKeepsFrozen(s: State, c: MintCall, mint: Pubkey)
    requires CanMint(s, c) && HoldersFrozen(s.tokens, mint)
    ensures HoldersFrozen(AfterMint(s, c).tokens, mint)
  {
  }

  lemma StepKeepsFrozenIff(s: State, step: Step, mint: Pubkey)
    requires Inv(s) && mint in s.issued && HoldersFrozen(s.tokens, mint)
    ensures HoldersFrozen(Next(s, step).tokens, mint) <==> BurnsUnit(s, step, mint)
  {
    if s.authority !in Signers(step) {
      match step
      case SetupMint(_, _) =>
      case MintCaseNft(c) =>
        if CanMint(s, c) {
          MintKeepsFrozen(s, c, mint);
        }
      case BurnCaseNft(c) =>
        if CanBurn(s, c) {
          BurnStepFrozenIff(s, c, mint);
        }
      case ClockTicks(_) =>
      case _ =>
        if TokenStep(s.tokens, step).Some? {
          StrangersCannotTouch(s, step, mint);
        }
    }
  }

  ghost predicate FrozenAt(s: State, steps: seq<Step>, mint: Pubkey, i: nat)
    requires i <= |steps|
  {
    HoldersFrozen(Run(s, steps[..i]).tokens, mint)
  }

  ghost predicate UnitBurnAt(s: State, steps: seq<Step>, mint: Pubkey, i: nat)
    requires i < |steps|
  {
    BurnsUnit(Run(s, steps[..i]), steps[i], mint)
  }

  lemma FrozenStep(s: State, steps: seq<Step>, mint: Pubkey, i: nat)
    requires Inv(s) && mint in s.issued && i < |steps|
    requires FrozenAt(s, steps, mint, i)
    ensures FrozenAt(s, steps, mint, i + 1) <==> UnitBurnAt(s, steps, mint, i)
  {
    assert steps[..i + 1][..i] == steps[..i];
    InvRun(s, steps[..i]);
    IssuedStays(s, steps[..i], mint);
    StepKeepsFrozenIff(Run(s, steps[..i]), steps[i], mint);
  }

  lemma {:induction false} FrozenWhileUnitBurns(s: State, steps: seq<Step>, mint: Pubkey, i: nat)
    requires Inv(s) && mint in s.issued && HoldersFrozen(s.tokens, mint) && i <= |steps|
    requires forall j: nat :: j < |steps| ==> UnitBurnAt(s, steps, mint, j)
    ensures FrozenAt(s, steps, mint, i)
  {
    if i > 0 {
      FrozenWhileUnitBurns(s, steps, mint, i - 1);
      FrozenStep(s, steps, mint, i - 1);
    }
  }

  /** For a mint used by any number of cases: its holders are frozen throughout a run exactly when
      every burn that succeeds names an account holding one unit. */
  lemma FrozenThroughoutIff(s: State, steps: seq<Step>, mint: Pubkey)
    requires Inv(s) && mint in s.issued && HoldersFrozen(s.tokens, mint)
    ensures (forall i: nat :: i <= |steps| ==> FrozenAt(s, steps, mint, i))
            <==> (forall i: nat :: i < |steps| ==> UnitBurnAt(s, steps, mint, i))
  {
    if forall i: nat :: i < |steps| ==> UnitBurnAt(s, steps, mint, i) {
      forall i: nat | i <= |steps|
        ensures FrozenAt(s, steps, mint, i)
      {
        FrozenWhileUnitBurns(s, steps, mint, i);
      }
    }
    if forall i: nat :: i <= |steps| ==> FrozenAt(s, steps, mint, i) {
      forall i: nat | i < |steps|
        ensures UnitBurnAt(s, steps, mint, i)
      {
        FrozenStep(s, steps, mint, i);
      }
    }
  }

  // ---------------------------------------------------------------------
  // Whose unit is burned
  // ---------------------------------------------------------------------

  function OwnedBy(mint: Pubkey, owner: Pubkey): Account -> nat {
    (a: Account) => if a.mint == mint && a.owner == owner then a.amount else 0
  }

  /** Units of the mint in the accounts of one owner. */
  ghost function Units(t: Tokens, mint: Pubkey, owner: Pubkey): nat {
    Sum(t.accounts, OwnedBy(mint, owner))
  }

  function LiveOf(mint: Pubkey, client: Pubkey): CaseNftRecord -> nat {
    (r: CaseNftRecord) => if r.mint == mint && r.burnedAt == 0 && r.clientWallet == client then 1 else 0
  }

  /** Unburned records of one client that name the mint. */
  ghost function LiveCases(s: State, mint: Pubkey, client: Pubkey): nat {
    Sum(s.records, LiveOf(mint, client))
  }

  /** Soul-binding for a mint shared by any number of cases: all holders are frozen, and everybody holds
      exactly one unit for each live case of theirs. */
  ghost predicate Matched(s: State, mint: Pubkey) {
    && HoldersFrozen(s.tokens, mint)
    && forall owner :: Units(s.tokens, mint, owner) == LiveCases(s, mint, owner)
  }

  /** A burn of the mint that succeeds names an account of the case's own client holding one unit. */
  predicate ProperBurn(s: State, step: Step, mint: Pubkey) {
    step.BurnCaseNft? && s.authority !in Signers(step) && CanBurn(s, step.burnCall) && step.burnCall.mint == mint ==>
      && s.tokens.accounts[step.burnCall.account].amount == 1
      && s.tokens.accounts[step.burnCall.account].owner == s.records[step.burnCall.caseId].clientWallet
  }

  /** Equal holders hold equal amounts. */
  lemma UnitsKept(t: Tokens, t': Tokens, mint: Pubkey, owner: Pubkey)
    requires forall k :: Holds(t', k, mint) ==> Holds(t, k, mint) && t'.accounts[k] == t.accounts[k]
    requires forall k :: Holds(t, k, mint) ==> Holds(t', k, mint)
    ensures Units(t', mint, owner) == Units(t, mint, owner)
  {
    forall k | k in t.accounts && OwnedBy(mint, owner)(t.accounts[k]) != 0
      ensures k in t'.accounts && t'.accounts[k] == t.accounts[k]
    {
      assert Holds(t, k, mint);
    }
    forall k | k in t'.accounts && OwnedBy(mint, owner)(t'.accounts[k]) != 0
      ensures k in t.accounts && t.accounts[k] == t'.accounts[k]
    {
      assert Holds(t', k, mint);
    }
    SumAgree(t'.accounts, t.accounts, OwnedBy(mint, owner));
  }

  /** Nor can anybody outside the program make a holder disappear. */
  lemma HoldersStay(s: State, step: Step, m: Pubkey)
    requires Locked(s, m) && HoldersFrozen(s.tokens, m)
    requires s.authority !in Signers(step) && TokenStep(s.tokens, step).Some?
    ensures forall k :: Holds(s.tokens, k, m) ==> Holds(TokenStep(s.tokens, step).value, k, m)
  {
  }

  lemma StrangersKeepMatched(s: State, step: Step, mint: Pubkey)
    requires Locked(s, mint) && Matched(s, mint)
    requires s.authority !in Signers(step) && TokenStep(s.tokens, step).Some?
    ensures Matched(s.(tokens := TokenStep(s.tokens, step).value), mint)
  {
    var t' := TokenStep(s.tokens, step).value;
    StrangersCannotTouch(s, step, mint);
    HoldersStay(s, step, mint);
    forall owner
      ensures Units(t', mint, owner) == Units(s.tokens, mint, owner)
    {
      UnitsKept(s.tokens, t', mint, owner);
    }
    assert LiveKept(s, s.(tokens := t'), mint);
  }

  ghost predicate LiveKept(s: State, s': State, mint: Pubkey) {
    forall owner :: LiveCases(s', mint, owner) == LiveCases(s, mint, owner)
  }

  lemma MintKeepsMatched(s: State, c: MintCall, mint: Pubkey)
    requires CanMint(s, c) && Matched(s, mint)
    ensures Matched(AfterMint(s, c), mint)
  {
    var s' := AfterMint(s, c);
    MintKeepsFrozen(s, c, mint);
    forall owner
      ensures Units(s'.tokens, mint, owner) == LiveCases(s', mint, owner)
    {
      assert Units(s.tokens, mint, owner) == LiveCases(s, mint, owner);
      SumReplace(s.tokens.accounts, OwnedBy(mint, owner), c.account, s'.tokens.accounts[c.account]);
      SumInsert(s.records, LiveOf(mint, owner), c.caseId, s'.records[c.caseId]);
    }
  }

  /** What a burn takes from each owner's units and from each client's live cases. */
  lemma BurnCounts(s: State, c: BurnCall, mint: Pubkey, owner: Pubkey)
    requires s.clock > 0 && CanBurn(s, c)
    ensures var s' := AfterBurn(s, c);
            && Units(s'.tokens, mint, owner) + (if c.mint == mint && s.tokens.accounts[c.account].owner == owner then 1 else 0)
               == Units(s.tokens, mint, owner)
            && LiveCases(s', mint, owner) + (if c.mint == mint && s.records[c.caseId].clientWallet == owner then 1 else 0)
               == LiveCases(s, mint, owner)
  {
    var s' := AfterBurn(s, c);
    SumReplace(s.tokens.accounts, OwnedBy(mint, owner), c.account, s'.tokens.accounts[c.account]);
    SumReplace(s.records, LiveOf(mint, owner), c.caseId, s'.records[c.caseId]);
  }

  lemma BurnMatchedIff(s: State, c: BurnCall, mint: Pubkey)
    requires s.clock > 0 && CanBurn(s, c) && Matched(s, mint)
    ensures Matched(AfterBurn(s, c), mint) <==>
              (c.mint == mint ==>
                 && s.tokens.accounts[c.account].amount == 1
                 && s.tokens.accounts[c.account].owner == s.records[c.caseId].clientWallet)
  {
    var s' := AfterBurn(s, c);
    forall owner
      ensures Units(s'.tokens, mint, owner) == LiveCases(s', mint, owner)
              <==> c.mint != mint
                   || (s.tokens.accounts[c.account].owner == owner <==> s.records[c.caseId].clientWallet == owner)
    {
      assert Units(s.tokens, mint, owner) == LiveCases(s, mint, owner);
      BurnCounts(s, c, mint, owner);
    }
    BurnStepFrozenIff(s, c, mint);
    if c.mint == mint {
      var taken := s.tokens.accounts[c.account].owner;
      assert Units(s'.tokens, mint, taken) == LiveCases(s', mint, taken) <==> s.records[c.caseId].clientWallet == taken;
    }
  }

  /** One step keeps units and live cases matched exactly when it is not an improper burn. */
  lemma StepMatchedIff(s: State, step: Step, mint: Pubkey)
    requires Inv(s) && mint in s.issued && Matched(s, mint)
    ensures Matched(Next(s, step), mint) <==> ProperBurn(s, step, mint)
  {
    if s.authority !in Signers(step) {
      match step
      case SetupMint(_, _) =>
        assert Next(s, step).tokens.accounts == s.tokens.accounts && LiveKept(s, Next(s, step), mint);
        assert MatchedFrame(s, Next(s, step), mint);
      case MintCaseNft(c) =>
        if CanMint(s, c) {
          MintKeepsMatched(s, c, mint);
        }
      case BurnCaseNft(c) =>
        if CanBurn(s, c) {
          BurnMatchedIff(s, c, mint);
        }
      case ClockTicks(_) =>
        assert MatchedFrame(s, Next(s, step), mint);
      case _ =>
        if TokenStep(s.tokens, step).Some? {
          StrangersKeepMatched(s, step, mint);
        }
    }
  }

  /** Same accounts and records. */
  ghost predicate MatchedFrame(s: State, s': State, mint: Pubkey) {
    && (forall owner :: Units(s'.tokens, mint, owner) == Units(s.tokens, mint, owner))
    && LiveKept(s, s', mint)
  }

  /** A mint fresh from the setup sequence has neither units nor cases. */
  lemma FreshMintMatched(s: State, step: Step, mint: Pubkey)
    requires Inv(s) && mint !in s.issued && mint in Next(s, step).issued
    ensures Matched(Next(s, step), mint)
  {
    var s' := Next(s, step);
    assert step.SetupMint? && mint !in s.tokens.mints && s'.tokens.accounts == s.tokens.accounts && s'.records == s.records;
    assert forall k :: !Holds(s'.tokens, k, mint);
    forall owner
      ensures Units(s'.tokens, mint, owner) == LiveCases(s', mint, owner)
    {
      SumZero(s'.tokens.accounts, OwnedBy(mint, owner));
      SumZero(s'.records, LiveOf(mint, owner));
    }
  }

  ghost predicate MatchedAt(s: State, steps: seq<Step>, mint: Pubkey, i: nat)
    requires i <= |steps|
  {
    mint in Run(s, steps[..i]).issued ==> Matched(Run(s, steps[..i]), mint)
  }

  ghost predicate ProperBurnAt(s: State, steps: seq<Step>, mint: Pubkey, i: nat)
    requires i < |steps|
  {
    mint in Run(s, steps[..i]).issued ==> ProperBurn(Run(s, steps[..i]), steps[i], mint)
  }

  lemma MatchedStep(s: State, steps: seq<Step>, mint: Pubkey, i: nat)
    requires Initial(s) && i < |steps| && MatchedAt(s, steps, mint, i)
    ensures MatchedAt(s, steps, mint, i + 1) <==> ProperBurnAt(s, steps, mint, i)
  {
    assert steps[..i + 1][..i] == steps[..i];
    InvRun(s, steps[..i]);
    var t := Run(s, steps[..i]);
    if mint in t.issued {
      StepMatchedIff(t, steps[i], mint);
    } else if mint in Next(t, steps[i]).issued {
      FreshMintMatched(t, steps[i], mint);
    }
  }

  lemma {:induction false} MatchedWhileProper(s: State, steps: seq<Step>, mint: Pubkey, i: nat)
    requires Initial(s) && i <= |steps|
    requires forall j: nat :: j < |steps| ==> ProperBurnAt(s, steps, mint, j)
    ensures MatchedAt(s, steps, mint, i)
  {
    if i > 0 {
      MatchedWhileProper(s, steps, mint, i - 1);
      MatchedStep(s, steps, mint, i - 1);
    }
  }

  /** For every run and every mint of the setup sequence, shared by any number of cases: the holders are
      frozen and everybody holds one unit for each live case of theirs throughout, exactly when every
      burn that succeeds names an account of the case's own client holding one unit. */
  lemma MatchedThroughoutIff(s: State, steps: seq<Step>, mint: Pubkey)
    requires Initial(s)
    ensures (forall i: nat :: i <= |steps| ==> MatchedAt(s, steps, mint, i))
            <==> (forall i: nat :: i < |steps| ==> ProperBurnAt(s, steps, mint, i))
  {
    if forall i: nat :: i < |steps| ==> ProperBurnAt(s, steps, mint, i) {
      forall i: nat | i <= |steps|
        ensures MatchedAt(s, steps, mint, i)
      {
        MatchedWhileProper(s, steps, mint, i);
      }
    }
    if forall i: nat :: i <= |steps| ==> MatchedAt(s, steps, mint, i) {
      forall i: nat | i < |steps|
        ensures ProperBurnAt(s, steps, mint, i)
      {
        MatchedStep(s, steps, mint, i);
      }
    }
  }

  // Runs in which one mint serves two cases.

  function Key(n: Byte): Pubkey {
    seq(32, _ => n)
  }

  function Case(n: Byte): Bytes16 {
    seq(16, _ => n)
  }

  lemma KeysDiffer(m: Byte, n: Byte)
    ensures Key(m) == Key(n) <==> m == n
    ensures Case(m) == Case(n) <==> m == n
  {
    assert Key(m)[0] == m && Key(n)[0] == n && Case(m)[0] == m && Case(n)[0] == n;
  }

  /** Mint 1, client 2, client's account 3, operator 4, stranger 5 with account 6. */
  function SharedMintRun(): seq<Step> {
    [ SetupMint(Key(1), Key(4)),
      AnyoneOpensAccount(Key(3), Key(1), Key(2)),
      MintCaseNft(MintCall(Case(1), Zeros(32), Key(1), Key(3), Key(2), Key(4), {Key(2), Key(4)})),
      MintCaseNft(MintCall(Case(2), Zeros(32), Key(1), Key(3), Key(2), Key(4), {Key(2), Key(4)})),
      BurnCaseNft(BurnCall(Case(1), Key(1), Key(3), Key(4), {Key(4)})) ]
  }

  /** Sharing a mint breaks soul-binding: after this run the client's account is thawed and holds a
      unit of a still unburned case, which the client can now dispose of without the program. */
  lemma SharedMintFails()
    ensures var s := State(Key(0), Tokens(map[], map[]), map[], 1, [], {});
            var t := Run(s, SharedMintRun());
            && Initial(s) && Key(1) in t.issued
            && Case(2) in t.records && t.records[Case(2)].burnedAt == 0 && t.records[Case(2)].mint == Key(1)
            && Holds(t.tokens, Key(3), Key(1)) && !t.tokens.accounts[Key(3)].frozen
            && Burn(t.tokens, Key(3), Key(1), 1, Key(2)).Some?
  {
    var s := State(Key(0), Tokens(map[], map[]), map[], 1, [], {});
    var steps := SharedMintRun();
    forall m: Byte, n: Byte
      ensures Key(m) == Key(n) <==> m == n
      ensures Case(m) == Case(n) <==> m == n
    {
      KeysDiffer(m, n);
    }
    var s1 := Next(s, steps[0]);
    var s2 := Next(s1, steps[1]);
    var s3 := Next(s2, steps[2]);
    var s4 := Next(s3, steps[3]);
    var s5 := Next(s4, steps[4]);
    assert s1.tokens.mints[Key(1)] == Mint(Some(Key(0)), Some(Key(0)), Some(Key(0)), true, 0, 0);
    assert s2.tokens.accounts[Key(3)] == Account(Key(1), Key(2), 0, true, None, 0);
    assert s3.tokens.accounts[Key(3)] == Account(Key(1), Key(2), 1, true, None, 0);
    assert s4.tokens.accounts[Key(3)] == Account(Key(1), Key(2), 2, true, None, 0);
    assert s5.tokens.accounts[Key(3)] == Account(Key(1), Key(2), 1, false, None, 0);
    assert steps[..0] == [];
    assert steps[..1][..0] == steps[..0] && steps[..2][..1] == steps[..1] && steps[..3][..2] == steps[..2];
    assert steps[..4][..3] == steps[..3] && steps[..5][..4] == steps[..4] && steps[..5] == steps;
    assert Run(s, steps[..1]) == s1;
    assert Run(s, steps[..2]) == s2;
    assert Run(s, steps[..3]) == s3;
    assert Run(s, steps[..4]) == s4;
    assert Run(s, steps) == s5;
  }

  /** Mint 1 serves client 2 with account 3 and client 5 with account 6; burning the first client's case
      names the second client's account. */
  function WrongAccountRun(): seq<Step> {
    [ SetupMint(Key(1), Key(4)),
      AnyoneOpensAccount(Key(3), Key(1), Key(2)),
      AnyoneOpensAccount(Key(6), Key(1), Key(5)),
      MintCaseNft(MintCall(Case(1), Zeros(32), Key(1), Key(3), Key(2), Key(4), {Key(2), Key(4)})),
      MintCaseNft(MintCall(Case(2), Zeros(32), Key(1), Key(6), Key(5), Key(4), {Key(5), Key(4)})),
      BurnCaseNft(BurnCall(Case(1), Key(1), Key(6), Key(4), {Key(4)})) ]
  }

  const START := State(Key(0), Tokens(map[], map[]), map[], 1, [], {})

  function UnitAccount(owner: Byte, amount: nat, frozen: bool): Account {
    Account(Key(1), Key(owner), amount, frozen, None, 0)
  }

  function RecordFor(n: Byte, client: Byte, burnedAt: int): CaseNftRecord {
    CaseNftRecord(Case(n), Key(1), Key(client), Key(4), Zeros(32), 1, burnedAt)
  }

  lemma AllKeysDiffer()
    ensures forall m: Byte, n: Byte :: (Key(m) == Key(n) <==> m == n) && (Case(m) == Case(n) <==> m == n)
  {
    forall m: Byte, n: Byte
      ensures Key(m) == Key(n) <==> m == n
      ensures Case(m) == Case(n) <==> m == n
    {
      KeysDiffer(m, n);
    }
  }

  /** The setup and the two accounts. */
  lemma WrongAccountOpens()
    ensures var s := Next(Next(Next(START, WrongAccountRun()[0]), WrongAccountRun()[1]), WrongAccountRun()[2]);
            && s.tokens.mints == map[Key(1) := Mint(Some(Key(0)), Some(Key(0)), Some(Key(0)), true, 0, 0)]
            && s.tokens.accounts == map[Key(3) := UnitAccount(2, 0, true), Key(6) := UnitAccount(5, 0, true)]
            && s.records == map[] && s.clock == 1 && s.issued == {Key(1)} && s.authority == Key(0)
  {
    AllKeysDiffer();
    var s1 := Next(START, WrongAccountRun()[0]);
    assert s1.tokens.mints == map[Key(1) := Mint(Some(Key(0)), Some(Key(0)), Some(Key(0)), true, 0, 0)];
  }

  /** The two cases minted. */
  lemma WrongAccountMints(s: State)
    requires s.tokens.mints == map[Key(1) := Mint(Some(Key(0)), Some(Key(0)), Some(Key(0)), true, 0, 0)]
    requires s.tokens.accounts == map[Key(3) := UnitAccount(2, 0, true), Key(6) := UnitAccount(5, 0, true)]
    requires s.records == map[] && s.clock == 1 && s.authority == Key(0)
    ensures var t := Next(Next(s, WrongAccountRun()[3]), WrongAccountRun()[4]);
            && t.tokens.mints == map[Key(1) := Mint(Some(Key(0)), Some(Key(0)), Some(Key(0)), true, 0, 2)]
            && t.tokens.accounts == map[Key(3) := UnitAccount(2, 1, true), Key(6) := UnitAccount(5, 1, true)]
            && t.records == map[Case(1) := RecordFor(1, 2, 0), Case(2) := RecordFor(2, 5, 0)]
            && t.clock == 1 && t.issued == s.issued && t.authority == Key(0)
  {
    AllKeysDiffer();
    var s4 := Next(s, WrongAccountRun()[3]);
    assert s4.tokens.accounts == map[Key(3) := UnitAccount(2, 1, true), Key(6) := UnitAccount(5, 0, true)];
    assert s4.records == map[Case(1) := RecordFor(1, 2, 0)];
  }

  /** The burn. */
  lemma WrongAccountBurns(s: State)
    requires s.tokens.mints == map[Key(1) := Mint(Some(Key(0)), Some(Key(0)), Some(Key(0)), true, 0, 2)]
    requires s.tokens.accounts == map[Key(3) := UnitAccount(2, 1, true), Key(6) := UnitAccount(5, 1, true)]
    requires s.records == map[Case(1) := RecordFor(1, 2, 0), Case(2) := RecordFor(2, 5, 0)]
    requires s.clock == 1 && s.authority == Key(0)
    ensures CanBurn(s, WrongAccountRun()[5].burnCall)
    ensures var t := Next(s, WrongAccountRun()[5]);
            && t.tokens.accounts == map[Key(3) := UnitAccount(2, 1, true), Key(6) := UnitAccount(5, 0, false)]
            && t.records == map[Case(1) := RecordFor(1, 2, 1), Case(2) := RecordFor(2, 5, 0)]
            && t.issued == s.issued
  {
    AllKeysDiffer();
  }

  /** What the accounts and records then say. */
  lemma WrongAccountLeaves(t: State)
    requires t.tokens.accounts == map[Key(3) := UnitAccount(2, 1, true), Key(6) := UnitAccount(5, 0, false)]
    requires t.records == map[Case(1) := RecordFor(1, 2, 1), Case(2) := RecordFor(2, 5, 0)]
    ensures HoldersFrozen(t.tokens, Key(1)) && !Matched(t, Key(1))
    ensures Holds(t.tokens, Key(3), Key(1)) && !OwnedByLiveClient(t, Key(3))
    ensures forall k :: Holds(t.tokens, k, Key(1)) ==> t.tokens.accounts[k].owner != Key(5)
    ensures t.records[Case(1)].burnedAt != 0 && t.records[Case(2)].burnedAt == 0 && t.records[Case(2)].clientWallet == Key(5)
  {
    AllKeysDiffer();
    SumZero(t.tokens.accounts, OwnedBy(Key(1), Key(5)));
    SumRemove(t.records, LiveOf(Key(1), Key(5)), Case(2));
    assert Units(t.tokens, Key(1), Key(5)) != LiveCases(t, Key(1), Key(5));
  }

  /** All holders stay frozen in this run and the one burn names an account holding a single unit. Yet
      afterwards the second client's unit is gone while that client's case is live, and the first client
      keeps the unit of a burned case. */
  lemma WrongUnitBurned()
    ensures var before, t := Run(START, WrongAccountRun()[..5]), Run(START, WrongAccountRun());
            && Initial(START) && Key(1) in t.issued
            && CanBurn(before, WrongAccountRun()[5].burnCall) && before.tokens.accounts[Key(6)].amount == 1
            && HoldersFrozen(before.tokens, Key(1)) && HoldersFrozen(t.tokens, Key(1))
            && Case(2) in t.records && t.records[Case(2)].burnedAt == 0 && t.records[Case(2)].clientWallet == Key(5)
            && (forall k :: Holds(t.tokens, k, Key(1)) ==> t.tokens.accounts[k].owner != Key(5))
            && Case(1) in t.records && t.records[Case(1)].burnedAt != 0
            && Holds(t.tokens, Key(3), Key(1)) && !OwnedByLiveClient(t, Key(3))
            && !Matched(t, Key(1))
  {
    var steps := WrongAccountRun();
    var ready := Next(Next(Next(START, steps[0]), steps[1]), steps[2]);
    var minted := Next(Next(ready, steps[3]), steps[4]);
    WrongAccountOpens();
    WrongAccountMints(ready);
    WrongAccountBurns(minted);
    WrongAccountLeaves(Next(minted, steps[5]));
    RunOfSix(START, steps);
  }

  lemma RunOfSix(s: State, steps: seq<Step>)
    requires |steps| == 6
    ensures Run(s, steps[..5]) == Next(Next(Next(Next(Next(s, steps[0]), steps[1]), steps[2]), steps[3]), steps[4])
    ensures Run(s, steps) == Next(Run(s, steps[..5]), steps[5])
  {
    assert steps[..0] == [];
    assert steps[..1][..0] == steps[..0] && steps[..2][..1] == steps[..1] && steps[..3][..2] == steps[..2];
    assert steps[..4][..3] == steps[..3] && steps[..5][..4] == steps[..4];
    assert Run(s, steps[..1]) == Next(s, steps[0]);
    assert Run(s, steps[..2]) == Next(Run(s, steps[..1]), steps[1]);
    assert Run(s, steps[..3]) == Next(Run(s, steps[..2]), steps[2]);
    assert Run(s, steps[..4]) == Next(Run(s, steps[..3]), steps[3]);
  }

  lemma {:induction false} IssuedStays(s: State, steps: seq<Step>, mint: Pubkey)
    requires mint in s.issued
    ensures mint in Run(s, steps).issued
    decreases |steps|
  {
    if steps != [] {
      IssuedStays(s, steps[..|steps| - 1], mint);
    }
  }

  // ---------------------------------------------------------------------
  // Records and their log
  // ---------------------------------------------------------------------

  /** A record never disappears, only its burn date ever changes, and that once, from zero. */
  lemma {:induction false} RecordHistory(s: State, steps: seq<Step>, caseId: Bytes16)
    requires s.clock > 0 && caseId in s.records
    ensures var t := Run(s, steps);
            && t.clock >= s.clock
            && caseId in t.records
            && t.records[caseId] == s.records[caseId].(burnedAt := t.records[caseId].burnedAt)
            && (t.records[caseId] == s.records[caseId]
                || (s.records[caseId].burnedAt == 0 && s.clock <= t.records[caseId].burnedAt <= t.clock))
    decreases |steps|
  {
    if steps != [] {
      RecordHistory(s, steps[..|steps| - 1], caseId);
    }
  }

  /** A step logs nothing and leaves the records alone, or logs one entry that says what it did. */
  lemma StepIsLogged(s: State, step: Step)
    ensures var t := Next(s, step);
            || (t.events == s.events && t.records == s.records)
            || (|t.events| == |s.events| + 1 && t.events[..|s.events|] == s.events
                && t.records == Observe(s.records, t.events[|s.events|]))
  {
  }

  /** The events of a run, replayed, give exactly the records on chain. */
  lemma {:induction false} LogRebuildsRecords(s: State, steps: seq<Step>)
    requires Initial(s)
    ensures Replay(Run(s, steps).events) == Run(s, steps).records
    decreases |steps|
  {
    if steps != [] {
      LogRebuildsRecords(s, steps[..|steps| - 1]);
      StepIsLogged(Run(s, steps[..|steps| - 1]), steps[|steps| - 1]);
    }
  }

  // ---------------------------------------------------------------------
  // What a record and an event say
  // ---------------------------------------------------------------------

  ghost predicate MadeBy(r: CaseNftRecord, step: Step, caseId: Bytes16, now: int) {
    && step.MintCaseNft?
    && var c := step.mintCall;
    && c.caseId == caseId && r.caseId == caseId && r.mint == c.mint && r.clientWallet == c.client && r.operator == c.operator
    && r.metadataUriHash == c.metadataUriHash && r.mintedAt == now && {r.clientWallet, r.operator} <= c.signers
  }

  ghost predicate BurnedBy(r: CaseNftRecord, step: Step, caseId: Bytes16, now: int) {
    && step.BurnCaseNft?
    && var c := step.burnCall;
    && c.caseId == caseId && c.mint == r.mint && c.operator in c.signers && r.burnedAt == now
  }

  /** What one step does to one record. */
  lemma RecordStep(s: State, step: Step, caseId: Bytes16)
    requires caseId in Next(s, step).records
    ensures var r := Next(s, step).records[caseId];
            if caseId !in s.records then MadeBy(r, step, caseId, s.clock) && r.burnedAt == 0
            else if r == s.records[caseId] then true
            else s.records[caseId].burnedAt == 0 && BurnedBy(r, step, caseId, s.clock) && r == s.records[caseId].(burnedAt := r.burnedAt)
  {
  }

  /** A record says what the mint call said that made it, which its client and its operator signed, and
      when; and if it is dated as burned, when it was burned, by a call that its operator signed. */
  lemma {:induction false} RecordFromCalls(s: State, steps: seq<Step>, caseId: Bytes16) returns (i: nat, j: nat)
    requires Initial(s) && caseId in Run(s, steps).records
    ensures i < |steps| && MadeBy(Run(s, steps).records[caseId], steps[i], caseId, Run(s, steps[..i]).clock)
    ensures var r := Run(s, steps).records[caseId];
            r.burnedAt != 0 ==> i < j < |steps| && BurnedBy(r, steps[j], caseId, Run(s, steps[..j]).clock)
    decreases |steps|
  {
    var n := |steps| - 1;
    var before := Run(s, steps[..n]);
    RecordStep(before, steps[n], caseId);
    if caseId in before.records {
      i, j := RecordFromCalls(s, steps[..n], caseId);
      assert steps[..n][..i] == steps[..i];
      if Run(s, steps).records[caseId] != before.records[caseId] {
        j := n;
      } else if before.records[caseId].burnedAt != 0 {
        assert steps[..n][..j] == steps[..j];
      }
    } else {
      i, j := n, 0;
    }
  }

  /** Every event says what its call said: an issue the mint call's own fields, a burn those of the burn
      call. */
  lemma {:induction false} EventFromCall(s: State, steps: seq<Step>, k: nat) returns (i: nat)
    requires Initial(s) && k < |Run(s, steps).events|
    ensures i < |steps|
    ensures match Run(s, steps).events[k]
            case CaseNftMinted(caseId, mint, client, operator, hash, time) =>
              && steps[i].MintCaseNft?
              && (var c := steps[i].mintCall;
                  c.caseId == caseId && c.mint == mint && c.client == client && c.operator == operator && c.metadataUriHash == hash)
              && time == Run(s, steps[..i]).clock
            case CaseNftBurned(caseId, mint, operator, time) =>
              && steps[i].BurnCaseNft?
              && (var c := steps[i].burnCall; c.caseId == caseId && c.mint == mint && c.operator == operator)
              && time == Run(s, steps[..i]).clock
    decreases |steps|
  {
    var n := |steps| - 1;
    StepIsLogged(Run(s, steps[..n]), steps[n]);
    if k < |Run(s, steps[..n]).events| {
      i := EventFromCall(s, steps[..n], k);
      assert steps[..n][..i] == steps[..i];
    } else {
      i := n;
      LoggedFields(Run(s, steps[..n]), steps[n]);
    }
  }

  lemma LoggedFields(s: State, step: Step)
    requires |Next(s, step).events| == |s.events| + 1
    ensures match Next(s, step).events[|s.events|]
            case CaseNftMinted(caseId, mint, client, operator, hash, time) =>
              && step.MintCaseNft?
              && (var c := step.mintCall;
                  c.caseId == caseId && c.mint == mint && c.client == client && c.operator == operator && c.metadataUriHash == hash)
              && time == s.clock
            case CaseNftBurned(caseId, mint, operator, time) =>
              && step.BurnCaseNft?
              && (var c := step.burnCall; c.caseId == caseId && c.mint == mint && c.operator == operator) && time == s.clock
  {
  }

  /** The mint of every record has no decimals and obeys the program alone, then and ever after. */
  lemma {:induction false} RecordMintsAreProgrammed(s: State, steps: seq<Step>, caseId: Bytes16)
    requires Initial(s) && caseId in Run(s, steps).records
    ensures var t := Run(s, steps);
            var mint := t.records[caseId].mint;
            && mint in t.tokens.mints
            && t.tokens.mints[mint].mintAuthority == Some(t.authority) && t.tokens.mints[mint].freezeAuthority == Some(t.authority)
            && t.tokens.mints[mint].decimals == 0
    decreases |steps|
  {
    var n := |steps| - 1;
    var before := Run(s, steps[..n]);
    if caseId in before.records {
      RecordMintsAreProgrammed(s, steps[..n], caseId);
      MintStaysProgrammed(before, steps[n], before.records[caseId].mint);
    }
  }

  lemma MintStaysProgrammed(s: State, step: Step, mint: Pubkey)
    requires mint in s.tokens.mints && s.tokens.mints[mint].decimals == 0
    requires s.tokens.mints[mint].mintAuthority == Some(s.authority) && s.tokens.mints[mint].freezeAuthority == Some(s.authority)
    ensures var t := Next(s, step);
            && t.authority == s.authority && mint in t.tokens.mints && t.tokens.mints[mint].decimals == 0
            && t.tokens.mints[mint].mintAuthority == Some(t.authority) && t.tokens.mints[mint].freezeAuthority == Some(t.authority)
  {
  }

  /** The honest issue: setup, an account for the client, and the mint call both signed leave the client
      one frozen unit and the case its record, from any state in which the three addresses are free. */
  lemma HonestIssue(s: State, payer: Pubkey, c: MintCall)
    requires c.mint !in s.tokens.mints && c.mint !in s.tokens.accounts && c.account !in s.tokens.accounts && c.account !in s.tokens.mints
    requires c.caseId !in s.records && c.account != c.mint
    requires s.authority !in {payer, c.mint} + c.signers && {c.client, c.operator} <= c.signers
    ensures var t := Run(s, [SetupMint(c.mint, payer), AnyoneOpensAccount(c.account, c.mint, c.client), MintCaseNft(c)]);
            && c.account in t.tokens.accounts && c.mint in t.tokens.mints && c.caseId in t.records
            && t.tokens.accounts[c.account] == Account(c.mint, c.client, 1, true, None, 0)
            && t.tokens.mints[c.mint].supply == 1
            && t.records[c.caseId] == CaseNftRecord(c.caseId, c.mint, c.client, c.operator, c.metadataUriHash, s.clock, 0)
  {
    var steps := [SetupMint(c.mint, payer), AnyoneOpensAccount(c.account, c.mint, c.client), MintCaseNft(c)];
    assert steps[..0] == [] && steps[..1][..0] == [] && steps[..2][..1] == steps[..1] && steps[..3] == steps;
    var s1 := Next(s, steps[0]);
    assert s1.tokens.mints[c.mint] == Mint(Some(s.authority), Some(s.authority), Some(s.authority), true, 0, 0);
    var s2 := Next(s1, steps[1]);
    assert s2.tokens.accounts[c.account] == Account(c.mint, c.client, 0, true, None, 0);
    assert Run(s, steps[..1]) == s1;
    assert Run(s, steps[..2]) == s2;
    assert Run(s, steps) == Next(s2, steps[2]);
  }
}
