/** The rules of the Token-2022 program that the case NFT relies on: who may change a mint or
    an account, what a frozen account refuses, and that a failing instruction changes nothing.

    Every instruction is a partial function: `None` is an error, and the runtime rolls the
    whole transaction back. */
module Token2022 {
  import opened Wrappers
  import opened Crypto
  import opened MapSum

  const U64_MAX: nat := 0xFFFF_FFFF_FFFF_FFFF

  datatype Mint = Mint(
    mintAuthority: Option<Pubkey>,
    freezeAuthority: Option<Pubkey>,
    permanentDelegate: Option<Pubkey>,
    startsFrozen: bool,
    decimals: nat,
    supply: nat)

  datatype Account = Account(
    mint: Pubkey,
    owner: Pubkey,
    amount: nat,
    frozen: bool,
    delegate: Option<Pubkey>,
    delegated: nat)

  datatype Tokens = Tokens(mints: map<Pubkey, Mint>, accounts: map<Pubkey, Account>)

  // ---------------------------------------------------------------------
  // Mints
  // ---------------------------------------------------------------------

  function InitMint(t: Tokens, mint: Pubkey, config: Mint): Option<Tokens> {
    if mint in t.mints || mint in t.accounts || config.supply != 0 then None
    else Some(t.(mints := t.mints[mint := config]))
  }

  function SetMintAuthority(t: Tokens, mint: Pubkey, next: Option<Pubkey>, signer: Pubkey): Option<Tokens> {
    if mint !in t.mints || t.mints[mint].mintAuthority != Some(signer) then None
    else Some(t.(mints := t.mints[mint := t.mints[mint].(mintAuthority := next)]))
  }

  function SetFreezeAuthority(t: Tokens, mint: Pubkey, next: Option<Pubkey>, signer: Pubkey): Option<Tokens> {
    if mint !in t.mints || t.mints[mint].freezeAuthority != Some(signer) then None
    else Some(t.(mints := t.mints[mint := t.mints[mint].(freezeAuthority := next)]))
  }

  function MintTo(t: Tokens, mint: Pubkey, account: Pubkey, amount: nat, signer: Pubkey): Option<Tokens> {
    if mint !in t.mints || account !in t.accounts then None
    else
      var m, a := t.mints[mint], t.accounts[account];
      if a.mint != mint || a.frozen || m.mintAuthority != Some(signer) then None
      else if m.supply + amount > U64_MAX || a.amount + amount > U64_MAX then None
      else Some(Tokens(t.mints[mint := m.(supply := m.supply + amount)],
                       t.accounts[account := a.(amount := a.amount + amount)]))
  }

  // ---------------------------------------------------------------------
  // Accounts
  // ---------------------------------------------------------------------

  /** A fresh account of a mint whose default state is frozen starts frozen. */
  function OpenAccount(t: Tokens, account: Pubkey, mint: Pubkey, owner: Pubkey): Option<Tokens> {
    if account in t.accounts || account in t.mints || mint !in t.mints then None
    else Some(t.(accounts := t.accounts[account := Account(mint, owner, 0, t.mints[mint].startsFrozen, None, 0)]))
  }

  function CloseAccount(t: Tokens, account: Pubkey, signer: Pubkey): Option<Tokens> {
    if account !in t.accounts || t.accounts[account].owner != signer || t.accounts[account].amount != 0 then None
    else Some(t.(accounts := t.accounts - {account}))
  }

  function Freeze(t: Tokens, account: Pubkey, mint: Pubkey, signer: Pubkey): Option<Tokens> {
    if account !in t.accounts || mint !in t.mints || t.accounts[account].mint != mint || t.accounts[account].frozen
       || t.mints[mint].freezeAuthority != Some(signer) then None
    else Some(t.(accounts := t.accounts[account := t.accounts[account].(frozen := true)]))
  }

  function Thaw(t: Tokens, account: Pubkey, mint: Pubkey, signer: Pubkey): Option<Tokens> {
    if account !in t.accounts || mint !in t.mints || t.accounts[account].mint != mint || !t.accounts[account].frozen
       || t.mints[mint].freezeAuthority != Some(signer) then None
    else Some(t.(accounts := t.accounts[account := t.accounts[account].(frozen := false)]))
  }

  /** The owner, the mint's permanent delegate, or a delegate within its allowance. */
  predicate MayMove(m: Mint, a: Account, amount: nat, signer: Pubkey) {
    m.permanentDelegate == Some(signer)
    || (a.delegate == Some(signer) && amount <= a.delegated)
    || (a.delegate != Some(signer) && a.owner == signer)
  }

  /** What is left of an account when `signer` has taken `amount` out of it. */
  function Debit(m: Mint, a: Account, amount: nat, signer: Pubkey): Account
    requires MayMove(m, a, amount, signer) && amount <= a.amount
  {
    if m.permanentDelegate != Some(signer) && a.delegate == Some(signer) then
      a.(amount := a.amount - amount,
         delegated := a.delegated - amount,
         delegate := if a.delegated == amount then None else a.delegate)
    else a.(amount := a.amount - amount)
  }

  function Burn(t: Tokens, account: Pubkey, mint: Pubkey, amount: nat, signer: Pubkey): Option<Tokens> {
    if account !in t.accounts || mint !in t.mints then None
    else
      var m, a := t.mints[mint], t.accounts[account];
      if a.mint != mint || a.frozen || a.amount < amount || m.supply < amount || !MayMove(m, a, amount, signer) then None
      else Some(Tokens(t.mints[mint := m.(supply := m.supply - amount)],
                       t.accounts[account := Debit(m, a, amount, signer)]))
  }

  function Transfer(t: Tokens, from: Pubkey, to: Pubkey, amount: nat, signer: Pubkey): Option<Tokens> {
    if from !in t.accounts || to !in t.accounts then None
    else
      var a, b := t.accounts[from], t.accounts[to];
      if a.mint !in t.mints || a.mint != b.mint || a.frozen || b.frozen || a.amount < amount
         || !MayMove(t.mints[a.mint], a, amount, signer) then None
      else if from == to then Some(t)
      else if b.amount + amount > U64_MAX then None
      else
        Some(t.(accounts := t.accounts[from := Debit(t.mints[a.mint], a, amount, signer)]
                                      [to := b.(amount := b.amount + amount)]))
  }

  function Approve(t: Tokens, account: Pubkey, delegate: Option<Pubkey>, allowance: nat, signer: Pubkey): Option<Tokens> {
    if account !in t.accounts || t.accounts[account].frozen || t.accounts[account].owner != signer then None
    else Some(t.(accounts := t.accounts[account := t.accounts[account].(delegate := delegate, delegated := allowance)]))
  }

  function SetOwner(t: Tokens, account: Pubkey, owner: Pubkey, signer: Pubkey): Option<Tokens> {
    if account !in t.accounts || t.accounts[account].frozen || t.accounts[account].owner != signer then None
    else Some(t.(accounts := t.accounts[account := t.accounts[account].(owner := owner, delegate := None, delegated := 0)]))
  }

  // ---------------------------------------------------------------------
  // What the rules amount to
  // ---------------------------------------------------------------------

  /** A frozen account refuses everything but thawing and closing. */
  lemma FrozenRefuses(t: Tokens, account: Pubkey, other: Pubkey, mint: Pubkey, amount: nat, key: Option<Pubkey>, signer: Pubkey)
    requires account in t.accounts && t.accounts[account].frozen
    ensures MintTo(t, mint, account, amount, signer).None? && Burn(t, account, mint, amount, signer).None?
    ensures Transfer(t, account, other, amount, signer).None? && Transfer(t, other, account, amount, signer).None?
    ensures Approve(t, account, key, amount, signer).None? && SetOwner(t, account, other, signer).None?
    ensures Freeze(t, account, mint, signer).None?
  {
  }

  /** Freezing and thawing are for the freeze authority of the account's own mint; one of the two is
      possible, and the other takes it back. */
  lemma FreezeAndThaw(t: Tokens, account: Pubkey, mint: Pubkey, signer: Pubkey)
    ensures var mayFreeze := account in t.accounts && mint in t.mints && t.accounts[account].mint == mint
                             && t.mints[mint].freezeAuthority == Some(signer);
            && (Freeze(t, account, mint, signer).Some? <==> mayFreeze && !t.accounts[account].frozen)
            && (Thaw(t, account, mint, signer).Some? <==> mayFreeze && t.accounts[account].frozen)
    ensures Freeze(t, account, mint, signer).Some? ==> Thaw(Freeze(t, account, mint, signer).value, account, mint, signer) == Some(t)
    ensures Thaw(t, account, mint, signer).Some? ==> Freeze(Thaw(t, account, mint, signer).value, account, mint, signer) == Some(t)
  {
    if Freeze(t, account, mint, signer).Some? {
      assert Thaw(Freeze(t, account, mint, signer).value, account, mint, signer).value.accounts == t.accounts;
    }
    if Thaw(t, account, mint, signer).Some? {
      assert Freeze(Thaw(t, account, mint, signer).value, account, mint, signer).value.accounts == t.accounts;
    }
  }

  /** Only the present authority hands over, its successor can hand back, and nobody takes over what was
      given up for good. */
  lemma AuthorityHandsOver(t: Tokens, mint: Pubkey, successor: Pubkey, signer: Pubkey)
    ensures SetMintAuthority(t, mint, Some(successor), signer).Some? <==> mint in t.mints && t.mints[mint].mintAuthority == Some(signer)
    ensures SetFreezeAuthority(t, mint, Some(successor), signer).Some? <==> mint in t.mints && t.mints[mint].freezeAuthority == Some(signer)
    ensures SetMintAuthority(t, mint, Some(successor), signer).Some? ==>
              SetMintAuthority(SetMintAuthority(t, mint, Some(successor), signer).value, mint, Some(signer), successor) == Some(t)
    ensures SetFreezeAuthority(t, mint, Some(successor), signer).Some? ==>
              SetFreezeAuthority(SetFreezeAuthority(t, mint, Some(successor), signer).value, mint, Some(signer), successor) == Some(t)
    ensures SetMintAuthority(t, mint, None, signer).Some? ==>
              forall key, next :: SetMintAuthority(SetMintAuthority(t, mint, None, signer).value, mint, next, key).None?
  {
    if SetMintAuthority(t, mint, Some(successor), signer).Some? {
      assert SetMintAuthority(SetMintAuthority(t, mint, Some(successor), signer).value, mint, Some(signer), successor).value.mints == t.mints;
    }
    if SetFreezeAuthority(t, mint, Some(successor), signer).Some? {
      assert SetFreezeAuthority(SetFreezeAuthority(t, mint, Some(successor), signer).value, mint, Some(signer), successor).value.mints == t.mints;
    }
  }

  /** A transfer moves exactly its amount, and of the paying account a delegate's allowance shrinks by it. */
  lemma TransferMoves(t: Tokens, from: Pubkey, to: Pubkey, amount: nat, signer: Pubkey)
    requires Transfer(t, from, to, amount, signer).Some? && from != to
    ensures var u := Transfer(t, from, to, amount, signer).value;
            && u.mints == t.mints && u.accounts.Keys == t.accounts.Keys
            && (forall k :: k in t.accounts && k != from && k != to ==> u.accounts[k] == t.accounts[k])
            && var a, b, a', b' := t.accounts[from], t.accounts[to], u.accounts[from], u.accounts[to];
            && a.amount == a'.amount + amount && b'.amount == b.amount + amount <= U64_MAX
            && (b'.mint, b'.owner, b'.frozen, b'.delegate, b'.delegated) == (b.mint, b.owner, b.frozen, b.delegate, b.delegated)
            && (a'.mint, a'.owner, a'.frozen) == (a.mint, a.owner, a.frozen)
            && if a.delegate == Some(signer) && t.mints[a.mint].permanentDelegate != Some(signer) then
                 a.delegated == a'.delegated + amount && a'.delegate == (if a'.delegated == 0 then None else a.delegate)
               else (a'.delegate, a'.delegated) == (a.delegate, a.delegated)
  {
  }

  /** Who may take units out of a thawed account that holds enough: the permanent delegate, the approved
      delegate up to what was approved, and the owner; an approval by the owner lasts until the account
      changes hands. */
  lemma ApprovalBinds(t: Tokens, account: Pubkey, delegate: Pubkey, allowance: nat, amount: nat, signer: Pubkey)
    requires account in t.accounts && t.accounts[account].mint in t.mints && t.accounts[account].amount >= amount
    ensures var approved := Approve(t, account, Some(delegate), allowance, signer);
            && (approved.Some? <==> !t.accounts[account].frozen && t.accounts[account].owner == signer)
            && (approved.Some? && t.mints[t.accounts[account].mint].permanentDelegate.None? && delegate != signer ==>
                  && (Transfer(approved.value, account, account, amount, delegate).Some? <==> amount <= allowance)
                  && Transfer(approved.value, account, account, amount, signer).Some?
                  && forall next :: var handedOver := SetOwner(approved.value, account, next, signer);
                       && handedOver.Some?
                       && forall key :: Transfer(handedOver.value, account, account, amount, key).Some? <==> key == next)
  {
  }

  /** An account is closed by its owner, and only when it is empty. */
  lemma ClosesWhenEmpty(t: Tokens, account: Pubkey, signer: Pubkey)
    ensures CloseAccount(t, account, signer).Some? <==>
              account in t.accounts && t.accounts[account].owner == signer && t.accounts[account].amount == 0
    ensures CloseAccount(t, account, signer).Some? ==>
              && CloseAccount(t, account, signer).value.mints == t.mints
              && CloseAccount(t, account, signer).value.accounts == map k | k in t.accounts && k != account :: t.accounts[k]
  {
  }

  // ---------------------------------------------------------------------
  // Conservation
  // ---------------------------------------------------------------------

  function AmountIn(mint: Pubkey): Account -> nat {
    (a: Account) => if a.mint == mint then a.amount else 0
  }

  /** Units of a mint held in all accounts together. */
  ghost function Circulating(t: Tokens, mint: Pubkey): nat {
    Sum(t.accounts, AmountIn(mint))
  }

  ghost predicate Conserved(t: Tokens) {
    && (forall m :: m in t.mints ==> t.mints[m].supply == Circulating(t, m))
    && (forall k :: k in t.accounts ==> t.accounts[k].mint in t.mints)
    && t.mints.Keys !! t.accounts.Keys
  }
}
