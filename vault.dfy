/**
 * The vault program as a specification over a ledger value: each of the four
 * instructions either yields the next ledger or an error, in which case the
 * runtime keeps the ledger it had.
 *
 * A ledger holds the lamports of every address and the `VaultState` record
 * stored at each address the program owns. The account constraints of the
 * `Initialize`, `Deposit`, `Withdraw` and `Close` account structs are the
 * checks at the head of each instruction; the handlers' effects follow them.
 */
module Vault {
  import opened Pda

  const U64_MAX: int := 0xFFFF_FFFF_FFFF_FFFF
  type u64 = x: int | 0 <= x <= U64_MAX

  /** The tag Anchor prepends to every `#[account]` record. */
  const DISCRIMINATOR_LEN: nat := 8
  /** `VaultState::INIT_SPACE`: one byte per bump. */
  const INIT_SPACE: nat := 1 + 1
  /** `space = 8 + VaultState::INIT_SPACE`, the bytes allocated for a record. */
  const VAULT_STATE_SPACE: nat := DISCRIMINATOR_LEN + INIT_SPACE

  /** The persisted record: the bumps that re-derive the vault and the record itself. */
  datatype VaultState = VaultState(vaultBump: u8, stateBump: u8)

  datatype Error =
    | AccountNotInitialized   // `vault_state` holds no `VaultState` record
    | ConstraintSeeds         // a supplied account is not the address its seeds derive
    | AccountAlreadyInUse     // `init` on an address that already holds a record
    | InsufficientFunds       // a transfer's source holds fewer lamports than asked
    | ArithmeticOverflow      // a credit would take an account past `u64::MAX`
    | DerivationExhausted     // no bump from 255 down to 1 gives an off-curve address

  datatype Result<T> = Ok(value: T) | Err(error: Error)

  /**
   * What the cluster provides and the program cannot see into: the curve test
   * used by address derivation, and `Rent::minimum_balance` by account size.
   */
  datatype Cluster = Cluster(onCurve: Address -> bool, minimumBalance: nat -> u64)

  datatype Ledger = Ledger(lamports: map<Address, u64>, records: map<Address, VaultState>)

  /** Lamports held by `a`; an address the ledger has never seen holds none. */
  function Balance(l: map<Address, u64>, a: Address): u64
  {
    if a in l then l[a] else 0
  }

  /** `amount` lamports left `from` for `to`, and no other balance changed. */
  ghost predicate Moved(l: map<Address, u64>, l': map<Address, u64>, from: Address, to: Address, amount: nat)
  {
    && Balance(l', from) == Balance(l, from) - amount
    && Balance(l', to) == Balance(l, to) + amount
    && forall a :: a != from && a != to ==> Balance(l', a) == Balance(l, a)
  }

  /**
   * `system_program::transfer`: debits `from` and credits `to` by `amount`
   * together, or fails and changes nothing.
   */
  function Transfer(l: map<Address, u64>, from: Address, to: Address, amount: u64): (r: Result<map<Address, u64>>)
    ensures r.Ok? <==> Balance(l, from) >= amount && (from == to || Balance(l, to) + amount <= U64_MAX)
    ensures r.Err? ==> r.error == if Balance(l, from) < amount then InsufficientFunds else ArithmeticOverflow
    ensures r.Ok? && from != to ==> Moved(l, r.value, from, to, amount)
    ensures r.Ok? && from == to ==> forall a :: Balance(r.value, a) == Balance(l, a)
  {
    if Balance(l, from) < amount then Err(InsufficientFunds)
    else
      var debited := l[from := Balance(l, from) - amount];
      if Balance(debited, to) + amount > U64_MAX then Err(ArithmeticOverflow)
      else Ok(debited[to := Balance(debited, to) + amount])
  }

  /**
   * Anchor's `close = destination`: adds every lamport of `account` to
   * `destination` and leaves `account` empty. Anchor unwraps the checked
   * addition, so an overflow aborts the program with a panic; the model
   * reports that abort as `ArithmeticOverflow`, and the runtime discards the
   * instruction's writes either way.
   */
  function CloseAccount(l: map<Address, u64>, account: Address, destination: Address): (r: Result<map<Address, u64>>)
    ensures r.Ok? <==> Balance(l, destination) + Balance(l, account) <= U64_MAX
    ensures r.Err? ==> r.error == ArithmeticOverflow
    ensures r.Ok? ==> Balance(r.value, account) == 0
    ensures r.Ok? && account != destination ==> Moved(l, r.value, account, destination, Balance(l, account))
  {
    if Balance(l, destination) + Balance(l, account) > U64_MAX then Err(ArithmeticOverflow)
    else Ok(l[destination := Balance(l, destination) + Balance(l, account)][account := 0])
  }

  /**
   * Lamports `init` takes from the payer for an account that already holds
   * `current`: the whole minimum when it is empty (`create_account`), otherwise
   * whatever tops it up to the minimum (at least one lamport).
   */
  function InitFunding(current: u64, minimum: u64): (r: u64)
    ensures current + r <= U64_MAX
    ensures current + r >= minimum
    ensures current == 0 ==> r == minimum
    ensures current > 0 ==> current + r == if current >= minimum then current else minimum
  {
    if current == 0 then minimum
    else
      var target := if minimum >= 1 then minimum else 1;
      if current >= target then 0 else target - current
  }

  /** `["state", owner]` with its canonical bump, as a bare `bump` constraint finds it. */
  function StateAccount(onCurve: Address -> bool, owner: Address): Option<(Address, u8)>
  {
    FindProgramAddress(onCurve, StateSeed, owner)
  }

  /** `["vault", state]` with its canonical bump. */
  function VaultAccount(onCurve: Address -> bool, state: Address): Option<(Address, u8)>
  {
    FindProgramAddress(onCurve, VaultSeed, state)
  }

  /** `vaultState` and `vault` are the canonical addresses derived for `owner`. */
  ghost predicate CanonicalAccounts(onCurve: Address -> bool, owner: Address, vault: Address, vaultState: Address)
  {
    && StateAccount(onCurve, owner).Some?
    && vaultState == StateAccount(onCurve, owner).value.0
    && VaultAccount(onCurve, vaultState).Some?
    && vault == VaultAccount(onCurve, vaultState).value.0
  }

  /**
   * A record stored by `Initialize`: it sits at the canonical `["state", owner]`
   * address of a keypair owner and holds the two canonical bumps.
   */
  ghost predicate RecordCanonical(onCurve: Address -> bool, a: Address, st: VaultState)
  {
    && a.Derived? && a.tag == StateSeed && a.seed.Key?
    && StateAccount(onCurve, a.seed) == Some((a, st.stateBump))
    && VaultAccount(onCurve, a).Some?
    && VaultAccount(onCurve, a).value.1 == st.vaultBump
  }

  /** The invariant of every reachable ledger: canonical, rent-exempt records. */
  ghost predicate Consistent(c: Ledger, env: Cluster)
  {
    forall a :: a in c.records ==>
      && RecordCanonical(env.onCurve, a, c.records[a])
      && Balance(c.lamports, a) >= env.minimumBalance(VAULT_STATE_SPACE)
  }

  /**
   * The account constraints shared by `Deposit`, `Withdraw` and `Close`:
   * `vault_state` must hold a record, `vault` must be the address derived from
   * `["vault", vault_state]` with the stored `vault_bump`, and `vault_state`
   * the one derived from `["state", signer]` with the stored `state_bump`.
   */
  function ValidateVaultAccounts(c: Ledger, onCurve: Address -> bool, signer: Wallet, vault: Address, vaultState: Address)
    : (r: Result<VaultState>)
    ensures r.Ok? <==>
      && vaultState in c.records
      && CreateProgramAddress(onCurve, VaultSeed, vaultState, c.records[vaultState].vaultBump) == Some(vault)
      && CreateProgramAddress(onCurve, StateSeed, signer, c.records[vaultState].stateBump) == Some(vaultState)
    ensures r.Ok? ==> r.value == c.records[vaultState]
    ensures r.Err? ==> r.error == if vaultState in c.records then ConstraintSeeds else AccountNotInitialized
  {
    if vaultState !in c.records then Err(AccountNotInitialized)
    else
      var st := c.records[vaultState];
      if CreateProgramAddress(onCurve, VaultSeed, vaultState, st.vaultBump) != Some(vault) then Err(ConstraintSeeds)
      else if CreateProgramAddress(onCurve, StateSeed, signer, st.stateBump) != Some(vaultState) then Err(ConstraintSeeds)
      else Ok(st)
  }

  /**
   * `initialize`: `vault_state` must be the canonical `["state", signer]`
   * address and `vault` the canonical `["vault", vault_state]` one; `init`
   * refuses an existing record, funds the new one from the signer up to the
   * rent-exempt minimum for its 10 bytes, and the handler stores both
   * canonical bumps. The vault's balance is not touched.
   */
  function Initialize(c: Ledger, env: Cluster, signer: Wallet, vault: Address, vaultState: Address): (r: Result<Ledger>)
    ensures r.Ok? <==>
      && CanonicalAccounts(env.onCurve, signer, vault, vaultState)
      && vaultState !in c.records
      && Balance(c.lamports, signer) >= InitFunding(Balance(c.lamports, vaultState), env.minimumBalance(VAULT_STATE_SPACE))
    ensures r.Ok? ==>
      && r.value.records == c.records[vaultState := VaultState(VaultAccount(env.onCurve, vaultState).value.1,
                                                                StateAccount(env.onCurve, signer).value.1)]
      && Moved(c.lamports, r.value.lamports, signer, vaultState,
               InitFunding(Balance(c.lamports, vaultState), env.minimumBalance(VAULT_STATE_SPACE)))
      && Balance(r.value.lamports, vaultState) >= env.minimumBalance(VAULT_STATE_SPACE)
      && Balance(r.value.lamports, vault) == Balance(c.lamports, vault)
    ensures r.Err? && StateAccount(env.onCurve, signer).Some? && vaultState == StateAccount(env.onCurve, signer).value.0 ==>
      r.error ==
        if vaultState in c.records then AccountAlreadyInUse
        else if Balance(c.lamports, signer) < InitFunding(Balance(c.lamports, vaultState), env.minimumBalance(VAULT_STATE_SPACE))
        then InsufficientFunds
        else if VaultAccount(env.onCurve, vaultState).None? then DerivationExhausted
        else ConstraintSeeds
  {
    // the `init` field first: its seeds, then the allocation and its funding
    match StateAccount(env.onCurve, signer)
    case None => Err(DerivationExhausted)
    case Some((stateAddress, stateBump)) =>
      if vaultState != stateAddress then Err(ConstraintSeeds)
      else if vaultState in c.records then Err(AccountAlreadyInUse)
      else
        var funding := InitFunding(Balance(c.lamports, vaultState), env.minimumBalance(VAULT_STATE_SPACE));
        match Transfer(c.lamports, signer, vaultState, funding)
        case Err(e) => Err(e)
        case Ok(funded) =>
          // then the seeds of the other fields
          match VaultAccount(env.onCurve, vaultState)
          case None => Err(DerivationExhausted)
          case Some((vaultAddress, vaultBump)) =>
            if vault != vaultAddress then Err(ConstraintSeeds)
            else Ok(Ledger(funded, c.records[vaultState := VaultState(vaultBump, stateBump)]))
  }

  /**
   * `deposit(amount)`: after the account constraints, the signer transfers
   * exactly `amount` to the vault; `amount` itself is not checked.
   */
  function Deposit(c: Ledger, env: Cluster, signer: Wallet, vault: Address, vaultState: Address, amount: u64)
    : (r: Result<Ledger>)
    ensures r.Ok? <==>
      && ValidateVaultAccounts(c, env.onCurve, signer, vault, vaultState).Ok?
      && Balance(c.lamports, signer) >= amount
      && Balance(c.lamports, vault) + amount <= U64_MAX
    ensures r.Ok? ==> r.value.records == c.records && Moved(c.lamports, r.value.lamports, signer, vault, amount)
    ensures r.Err? && ValidateVaultAccounts(c, env.onCurve, signer, vault, vaultState).Err? ==>
      r.error == ValidateVaultAccounts(c, env.onCurve, signer, vault, vaultState).error
    ensures r.Err? && ValidateVaultAccounts(c, env.onCurve, signer, vault, vaultState).Ok? ==>
      r.error == if Balance(c.lamports, signer) < amount then InsufficientFunds else ArithmeticOverflow
  {
    match ValidateVaultAccounts(c, env.onCurve, signer, vault, vaultState)
    case Err(e) => Err(e)
    case Ok(_) =>
      match Transfer(c.lamports, signer, vault, amount)
      case Err(e) => Err(e)
      case Ok(l) => Ok(c.(lamports := l))
  }

  /**
   * The address the program signs for when it passes the signer seeds
   * `["vault", vault_state, [vault_bump]]` to a cross-program call.
   */
  function PdaSigner(onCurve: Address -> bool, vaultState: Address, vaultBump: u8): Option<Address>
  {
    CreateProgramAddress(onCurve, VaultSeed, vaultState, vaultBump)
  }

  /**
   * `withdraw(amount)`: after the account constraints, the vault transfers
   * exactly `amount` to the signer, the program signing for the vault with
   * its seeds; `amount` itself is not checked.
   */
  function Withdraw(c: Ledger, env: Cluster, signer: Wallet, vault: Address, vaultState: Address, amount: u64)
    : (r: Result<Ledger>)
    ensures r.Ok? <==>
      && ValidateVaultAccounts(c, env.onCurve, signer, vault, vaultState).Ok?
      && Balance(c.lamports, vault) >= amount
      && Balance(c.lamports, signer) + amount <= U64_MAX
    ensures r.Ok? ==> PdaSigner(env.onCurve, vaultState, c.records[vaultState].vaultBump) == Some(vault)
    ensures r.Ok? ==> r.value.records == c.records && Moved(c.lamports, r.value.lamports, vault, signer, amount)
    ensures r.Err? && ValidateVaultAccounts(c, env.onCurve, signer, vault, vaultState).Err? ==>
      r.error == ValidateVaultAccounts(c, env.onCurve, signer, vault, vaultState).error
    ensures r.Err? && ValidateVaultAccounts(c, env.onCurve, signer, vault, vaultState).Ok? ==>
      r.error == if Balance(c.lamports, vault) < amount then InsufficientFunds else ArithmeticOverflow
  {
    match ValidateVaultAccounts(c, env.onCurve, signer, vault, vaultState)
    case Err(e) => Err(e)
    case Ok(_) =>
      match Transfer(c.lamports, vault, signer, amount)
      case Err(e) => Err(e)
      case Ok(l) => Ok(c.(lamports := l))
  }

  /**
   * `close`: after the account constraints, the vault's whole balance goes to
   * the signer (the program signing for the vault), then `close = signer`
   * hands the record's lamports to the signer and deletes the record.
   */
  function Close(c: Ledger, env: Cluster, signer: Wallet, vault: Address, vaultState: Address): (r: Result<Ledger>)
    ensures r.Ok? <==>
      && ValidateVaultAccounts(c, env.onCurve, signer, vault, vaultState).Ok?
      && Balance(c.lamports, signer) + Balance(c.lamports, vault) + Balance(c.lamports, vaultState) <= U64_MAX
    ensures r.Ok? ==> PdaSigner(env.onCurve, vaultState, c.records[vaultState].vaultBump) == Some(vault)
    ensures r.Ok? ==>
      && r.value.records == c.records - {vaultState}
      && Balance(r.value.lamports, vault) == 0
      && Balance(r.value.lamports, vaultState) == 0
      && Balance(r.value.lamports, signer)
         == Balance(c.lamports, signer) + Balance(c.lamports, vault) + Balance(c.lamports, vaultState)
      && forall a :: a != signer && a != vault && a != vaultState ==> Balance(r.value.lamports, a) == Balance(c.lamports, a)
    ensures r.Err? && ValidateVaultAccounts(c, env.onCurve, signer, vault, vaultState).Err? ==>
      r.error == ValidateVaultAccounts(c, env.onCurve, signer, vault, vaultState).error
    ensures r.Err? && ValidateVaultAccounts(c, env.onCurve, signer, vault, vaultState).Ok? ==> r.error == ArithmeticOverflow
  {
    match ValidateVaultAccounts(c, env.onCurve, signer, vault, vaultState)
    case Err(e) => Err(e)
    case Ok(_) =>
      match Transfer(c.lamports, vault, signer, Balance(c.lamports, vault))
      case Err(e) => Err(e)
      case Ok(swept) =>
        match CloseAccount(swept, vaultState, signer)
        case Err(e) => Err(e)
        case Ok(closed) => Ok(Ledger(closed, c.records - {vaultState}))
  }
}
