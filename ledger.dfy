/**
 * The program as it runs: the ledger's balances and records are fields that
 * each instruction updates step by step, as the handlers and the runtime do,
 * and each method is proved to do what the `Vault` specification says. When
 * an instruction fails, the runtime discards everything it wrote.
 */
module VaultLedger {
  import opened Pda
  import opened Vault
  import VaultProperties

  datatype Outcome = Pass | Fail(error: Error)

  /** The instruction ended as `spec` says: with its next ledger, or with its error and nothing changed. */
  ghost predicate Follows(r: Outcome, spec: Result<Ledger>, before: Ledger, after: Ledger)
  {
    match spec
    case Ok(next) => r == Pass && after == next
    case Err(e) => r == Fail(e) && after == before
  }

  class VaultProgram {
    const env: Cluster
    var lamports: map<Address, u64>
    var records: map<Address, VaultState>

    function Snapshot(): Ledger
      reads this
    {
      Ledger(lamports, records)
    }

    ghost predicate Valid()
      reads this
    {
      Consistent(Snapshot(), env)
    }

    /** A cluster whose accounts hold `lamports` and where no vault exists yet. */
    constructor (env: Cluster, lamports: map<Address, u64>)
      ensures Valid()
      ensures this.env == env && this.lamports == lamports && records == map[]
    {
      this.env := env;
      this.lamports := lamports;
      records := map[];
    }

    /** The system program's `transfer`, all or nothing. */
    method SystemTransfer(from: Address, to: Address, amount: u64) returns (r: Outcome)
      modifies this
      ensures records == old(records)
      ensures match Transfer(old(lamports), from, to, amount)
              case Ok(l) => r == Pass && lamports == l
              case Err(e) => r == Fail(e) && lamports == old(lamports)
    {
      var before := lamports;
      var fromBalance := Balance(lamports, from);
      if fromBalance < amount {
        return Fail(InsufficientFunds);
      }
      lamports := lamports[from := fromBalance - amount];
      var toBalance := Balance(lamports, to);
      if toBalance + amount > U64_MAX {
        lamports := before;
        return Fail(ArithmeticOverflow);
      }
      lamports := lamports[to := toBalance + amount];
      r := Pass;
    }

    /**
     * The allocation half of Anchor's `init, payer = payer`: refused when the
     * account is already in use, otherwise funded by the payer up to the
     * rent-exempt minimum. The record itself is written when the instruction
     * succeeds.
     */
    method Allocate(payer: Address, account: Address) returns (r: Outcome)
      modifies this
      ensures records == old(records)
      ensures account in old(records) ==> r == Fail(AccountAlreadyInUse) && lamports == old(lamports)
      ensures account !in old(records) ==>
              match Transfer(old(lamports), payer, account,
                             InitFunding(Balance(old(lamports), account), env.minimumBalance(VAULT_STATE_SPACE)))
              case Ok(l) => r == Pass && lamports == l
              case Err(e) => r == Fail(e) && lamports == old(lamports)
    {
      if account in records {
        return Fail(AccountAlreadyInUse);
      }
      var funding := InitFunding(Balance(lamports, account), env.minimumBalance(VAULT_STATE_SPACE));
      r := SystemTransfer(payer, account, funding);
    }

    method Initialize(signer: Wallet, vault: Address, vaultState: Address) returns (r: Outcome)
      requires Valid()
      modifies this
      ensures Valid()
      ensures Follows(r, Vault.Initialize(old(Snapshot()), env, signer, vault, vaultState), old(Snapshot()), Snapshot())
    {
      // vault_state: seeds = [b"state", signer], bump
      var stateFound := StateAccount(env.onCurve, signer);
      if stateFound.None? {
        return Fail(DerivationExhausted);
      }
      var (stateAddress, stateBump) := stateFound.value;
      if vaultState != stateAddress {
        return Fail(ConstraintSeeds);
      }
      // vault_state: init, payer = signer, space = 8 + VaultState::INIT_SPACE
      var before := lamports;
      r := Allocate(signer, vaultState);
      if r.Fail? {
        return;
      }
      // vault: seeds = [b"vault", vault_state], bump, checked after the init field
      var vaultFound := VaultAccount(env.onCurve, vaultState);
      if vaultFound.None? {
        lamports := before;
        return Fail(DerivationExhausted);
      }
      var (vaultAddress, vaultBump) := vaultFound.value;
      if vault != vaultAddress {
        lamports := before;
        return Fail(ConstraintSeeds);
      }
      // the handler writes the bumps the constraints found
      var state := VaultState(0, 0);
      state := state.(stateBump := stateBump);
      state := state.(vaultBump := vaultBump);
      records := records[vaultState := state];
      VaultProperties.InitializeKeepsConsistent(old(Snapshot()), env, signer, vault, vaultState);
    }

    method Deposit(signer: Wallet, vault: Address, vaultState: Address, amount: u64) returns (r: Outcome)
      requires Valid()
      modifies this
      ensures Valid()
      ensures Follows(r, Vault.Deposit(old(Snapshot()), env, signer, vault, vaultState, amount), old(Snapshot()), Snapshot())
    {
      var accounts := ValidateVaultAccounts(Snapshot(), env.onCurve, signer, vault, vaultState);
      if accounts.Err? {
        return Fail(accounts.error);
      }
      r := SystemTransfer(signer, vault, amount);
      if r.Pass? {
        VaultProperties.DepositKeepsConsistent(old(Snapshot()), env, signer, vault, vaultState, amount);
      }
    }

    method Withdraw(signer: Wallet, vault: Address, vaultState: Address, amount: u64) returns (r: Outcome)
      requires Valid()
      modifies this
      ensures Valid()
      ensures Follows(r, Vault.Withdraw(old(Snapshot()), env, signer, vault, vaultState, amount), old(Snapshot()), Snapshot())
    {
      var accounts := ValidateVaultAccounts(Snapshot(), env.onCurve, signer, vault, vaultState);
      if accounts.Err? {
        return Fail(accounts.error);
      }
      // the signer seeds [b"vault", vault_state, [vault_bump]] sign for the vault
      assert PdaSigner(env.onCurve, vaultState, accounts.value.vaultBump) == Some(vault);
      r := SystemTransfer(vault, signer, amount);
      if r.Pass? {
        VaultProperties.WithdrawKeepsConsistent(old(Snapshot()), env, signer, vault, vaultState, amount);
      }
    }

    /**
     * Anchor's `close = destination`, run after the handler: the account's
     * lamports go to `destination` and its record is removed.
     */
    method CloseRecord(account: Address, destination: Address) returns (r: Outcome)
      modifies this
      ensures match CloseAccount(old(lamports), account, destination)
              case Ok(l) => r == Pass && lamports == l && records == old(records) - {account}
              case Err(e) => r == Fail(e) && lamports == old(lamports) && records == old(records)
    {
      var accountLamports := Balance(lamports, account);
      var destinationLamports := Balance(lamports, destination);
      if destinationLamports + accountLamports > U64_MAX {
        return Fail(ArithmeticOverflow);
      }
      lamports := lamports[destination := destinationLamports + accountLamports];
      lamports := lamports[account := 0];
      records := records - {account};
      r := Pass;
    }

    method Close(signer: Wallet, vault: Address, vaultState: Address) returns (r: Outcome)
      requires Valid()
      modifies this
      ensures Valid()
      ensures Follows(r, Vault.Close(old(Snapshot()), env, signer, vault, vaultState), old(Snapshot()), Snapshot())
    {
      var accounts := ValidateVaultAccounts(Snapshot(), env.onCurve, signer, vault, vaultState);
      if accounts.Err? {
        return Fail(accounts.error);
      }
      assert PdaSigner(env.onCurve, vaultState, accounts.value.vaultBump) == Some(vault);
      var before := lamports;
      r := SystemTransfer(vault, signer, Balance(lamports, vault));
      if r.Fail? {
        return;
      }
      r := CloseRecord(vaultState, signer);
      if r.Fail? {
        lamports := before;
        return;
      }
      VaultProperties.CloseKeepsConsistent(old(Snapshot()), env, signer, vault, vaultState);
    }
  }
}
