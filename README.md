# Solana lamport vault, modelled in Dafny

The program is an Anchor program with four instructions over a per-signer
vault:

- `initialize` creates a `VaultState` record at the address derived from
  `["state", signer]` and stores two bumps in it.
- `deposit(amount)` moves lamports from the signer to the vault, a
  system-owned account at the address derived from `["vault", vault_state]`.
- `withdraw(amount)` moves lamports from the vault back to the signer. The
  program signs for the vault with the vault's seeds.
- `close` sweeps the vault's whole balance to the signer. The
  `close = signer` constraint then deletes the record and returns its rent to
  the signer.

The model has four files:

- `pda.dfy` (module `Pda`) models program-derived addresses. An address is
  either a keypair's public key or `Derived(tag, seed, bump)`. The hash is a
  free constructor, so equal addresses come from equal inputs. The ed25519
  curve test is a parameter `onCurve` about which nothing is assumed.
  `FindProgramAddress` is the canonical search. It tries bumps from 255 down
  to 1, as the Solana SDK's `find_program_address` does, and fails only when
  every bump lands on the curve.
- `vault.dfy` (module `Vault`) gives the specification over a ledger value.
  A ledger maps each address to its lamports (a `u64`) and each
  program-owned address to its `VaultState`. Each instruction is a function
  that returns the next ledger or an error. On an error the runtime keeps the
  old ledger. The account constraints (`seeds`, `bump`,
  `bump = vault_state.…_bump`, `init`, `close = signer`) are the checks at the
  head of each function. The system program's `transfer` and Anchor's `close`
  are all-or-nothing functions with stated contracts.
- `ledger.dfy` (module `VaultLedger`) is the program as it runs. The class
  `VaultProgram` keeps the balances and records as fields. Its four methods
  update them step by step, in the order the handlers and the runtime do,
  and restore them when an instruction fails partway. The allocation half of
  `init` (`Allocate`) and the `close = signer` step (`CloseRecord`) are
  methods of their own. Each method is proved
  to end exactly as the `Vault` function for that instruction says, and to
  keep the ledger invariant `Consistent`.
- `properties.dfy` (module `VaultProperties`) proves what the instructions
  guarantee together:
  - conservation of lamports over any set of accounts;
  - authorization only through the signer's canonical derived addresses;
  - stored bumps never change;
  - each owner goes through `Uninitialized -> Active -> Uninitialized`;
  - any sequence of instructions (`Run`, where a failed instruction leaves
    the ledger as it was) keeps the invariant and conserves lamports, and
    after `close` an owner stays inactive until it runs `initialize` itself.

The invariant `Consistent` says that every record sits at the canonical
`["state", owner]` address of a keypair owner. It also says that the record
holds the canonical bumps for that address and for its vault, and at least
the rent-exempt minimum for its `8 + 2 = 10` bytes (`VAULT_STATE_SPACE`).

Behaviour the model takes from the code:

- The signer is the only identity. There is no separate owner parameter, so
  both the record and the vault depend on the signer alone.
- `amount` is never checked by the program. A deposit or withdrawal of zero
  succeeds whenever the accounts pass the constraints, and it changes no
  balance.
- `initialize` does not fund the vault. The vault account is not `mut`, and
  its balance is unchanged (`Vault.Initialize`).
- The errors are those that Anchor, the system program and the runtime raise:
  `AccountNotInitialized`, `ConstraintSeeds`, `AccountAlreadyInUse`,
  insufficient funds, arithmetic overflow, and an exhausted bump search.
- Anchor checks the `init` field first and the other fields' seeds after it.
  So `initialize` checks the `vault_state` seeds, refuses an existing record
  and funds the new one before it checks the `vault` seeds. A wrong `vault`
  with an existing record fails with `AccountAlreadyInUse`, and with a signer
  that cannot pay it fails with insufficient funds.
- When several checks of `deposit`, `withdraw` or `close` fail at once, the
  first in Anchor's order is reported. Accounts are loaded before any
  constraint runs, so a missing record gives `AccountNotInitialized`. Then the
  `vault` seeds are checked, then the `vault_state` seeds, and both give
  `ConstraintSeeds`.
- `init` takes the whole rent-exempt minimum from the signer when the record
  address is empty. When that address already holds lamports, `init` tops it
  up to the minimum instead. `init` fails when a record is already there.

Parameters of the model:

- The curve test and `Rent::minimum_balance` are given as the `Cluster`
  parameter.
- Signatures of top-level signers are taken as given. A signer is a
  `Wallet`, a keypair address.

## Model

| member | source | states |
|---|---|---|
| `Pda.FindFrom` | programs/vault/src/lib.rs:34-37 | The bump search returns the first bump, counting down, whose address is off the curve; every higher bump it passed was on the curve; failure means every bump it tried was on the curve |
| `Pda.FindProgramAddress` | programs/vault/src/lib.rs:39-46 | A bare `bump` constraint yields `Derived(tag, seed, bump)`, off the curve, with every bump above it on the curve (the canonical bump), or fails when no bump from 255 to 1 works |
| `Pda.CanonicalBumpIsUnique` | programs/vault/src/lib.rs:51-54 | Any bump that is off the curve with every higher bump on it is the bump the search returns, so the bumps `initialize` stores are determined by the seeds |
| `Pda.CreateWithFoundBump` | programs/vault/src/lib.rs:62-72 | Re-deriving with a stored canonical bump (`bump = vault_state.…`) gives back the canonical address |
| `Pda.DerivationInjective` | programs/vault/src/lib.rs:68-72 | One derived address comes from exactly one (tag, seed, bump) |
| `Vault.Transfer` | programs/vault/src/lib.rs:79-84 | `system_program::transfer` succeeds iff the source holds at least `amount` and the credit fits in a `u64`; on success exactly `amount` leaves `from` for `to` and nothing else changes; otherwise it fails with insufficient funds or overflow |
| `Vault.CloseAccount` | programs/vault/src/lib.rs:139 | `close = signer` moves all of the record's lamports to the signer and leaves the record with 0; it fails only when the signer's balance would overflow, which in Anchor is a panic that aborts the instruction |
| `Vault.InitFunding` | programs/vault/src/lib.rs:39-45 | `init` takes the full rent-exempt minimum for an empty address, otherwise what tops it up; afterwards the record holds at least the minimum and never more than `u64::MAX` |
| `Vault.ValidateVaultAccounts` | programs/vault/src/lib.rs:62-72 | The constraints pass iff `vault_state` holds a record, `vault` is derived from `["vault", vault_state, vault_bump]` and `vault_state` from `["state", signer, state_bump]` with the stored bumps; otherwise `AccountNotInitialized` or `ConstraintSeeds` |
| `Vault.Initialize` | programs/vault/src/lib.rs:30-55 | Succeeds iff both supplied accounts are the signer's canonical addresses, no record exists there and the signer can pay; then it adds exactly the record with the two canonical bumps, moves the funding from signer to record, leaves the record rent-exempt and the vault untouched. With the right `vault_state`, the error follows Anchor's order (the `init` field before the `vault` seeds): an existing record gives `AccountAlreadyInUse`, then an unpaid funding gives insufficient funds, then a wrong `vault` gives `ConstraintSeeds` |
| `Vault.Deposit` | programs/vault/src/lib.rs:58-86 | Succeeds iff the constraints pass, the signer holds at least `amount` and the vault's balance does not overflow; then exactly `amount` moves from signer to vault and records are unchanged; otherwise the constraint's error or insufficient funds |
| `Vault.Withdraw` | programs/vault/src/lib.rs:89-123 | Succeeds iff the constraints pass and the vault holds at least `amount` (and the signer does not overflow); the signer seeds `["vault", vault_state, vault_bump]` derive exactly the vault; exactly `amount` moves from vault to signer, records unchanged; a short vault fails with insufficient funds |
| `Vault.Close` | programs/vault/src/lib.rs:126-160 | Succeeds iff the constraints pass (and the signer's balance does not overflow); the signer seeds derive the vault; afterwards vault and record hold 0, the record is deleted, the signer gains the vault's whole balance plus the record's rent, and no other balance changes |
| `VaultProperties.MovedConserves` | programs/vault/src/lib.rs:79-84 | A transfer between two accounts of any set leaves the set's total lamports unchanged |
| `VaultProperties.Authorization` | programs/vault/src/lib.rs:130-141 | On a consistent ledger, the constraints of `deposit`, `withdraw` and `close` pass exactly when the supplied accounts are the signer's canonical `["state", signer]` record and its canonical `["vault", …]` vault |
| `VaultProperties.WrongVaultRejected` | programs/vault/src/lib.rs:93-98 | Supplying any vault other than the one derived from the signer's record makes `deposit`, `withdraw` and `close` fail with `ConstraintSeeds`, whatever the amount; `initialize`, whose `init` field is checked first, fails with `AccountAlreadyInUse` |
| `VaultProperties.InitializeKeepsConsistent` | programs/vault/src/lib.rs:39-54 | `initialize` keeps every record canonical and rent-exempt |
| `VaultProperties.DepositKeepsConsistent` | programs/vault/src/lib.rs:77-86 | `deposit` keeps every record canonical and rent-exempt |
| `VaultProperties.WithdrawKeepsConsistent` | programs/vault/src/lib.rs:108-123 | `withdraw` keeps every record canonical and rent-exempt |
| `VaultProperties.CloseKeepsConsistent` | programs/vault/src/lib.rs:145-160 | `close` keeps every remaining record canonical and rent-exempt |
| `VaultProperties.InitializeConserves` | programs/vault/src/lib.rs:39-44 | Total lamports of any set holding the signer and the record are unchanged by `initialize` |
| `VaultProperties.DepositConserves` | programs/vault/src/lib.rs:77-86 | Total lamports of any set holding the signer and the vault are unchanged by `deposit` |
| `VaultProperties.WithdrawConserves` | programs/vault/src/lib.rs:108-123 | Total lamports of any set holding the signer and the vault are unchanged by `withdraw` |
| `VaultProperties.CloseConserves` | programs/vault/src/lib.rs:135-160 | Total lamports of any set holding signer, vault and record are unchanged by `close` |
| `VaultProperties.ZeroAmountIsNoOp` | programs/vault/src/lib.rs:77-123 | A zero `deposit` or `withdraw` succeeds iff the accounts pass the constraints and then changes no balance |
| `VaultProperties.InitializeActivates` | programs/vault/src/lib.rs:39-54 | A successful `initialize` takes the signer from no record to a live record at its canonical address |
| `VaultProperties.InitializeTwiceFails` | programs/vault/src/lib.rs:39-46 | `initialize` repeated with the same accounts fails with `AccountAlreadyInUse` |
| `VaultProperties.InactiveRejects` | programs/vault/src/lib.rs:68-72 | Without a live record, `deposit`, `withdraw` and `close` fail whatever accounts are supplied |
| `VaultProperties.CloseDeactivates` | programs/vault/src/lib.rs:135-141 | A successful `close` takes the signer from a live record to none |
| `VaultProperties.ExecuteKeepsConsistent` | programs/vault/src/lib.rs:13-27 | Whichever of the four instructions runs, a success keeps every record canonical and rent-exempt |
| `VaultProperties.RunKeepsConsistent` | programs/vault/src/lib.rs:13-27 | Any sequence of instructions, each succeeding or failing, keeps every record canonical and rent-exempt |
| `VaultProperties.ExecuteConserves` | programs/vault/src/lib.rs:13-27 | Whichever instruction runs, a success leaves the total lamports of any set holding the accounts it names unchanged |
| `VaultProperties.RunConserves` | programs/vault/src/lib.rs:13-27 | Any sequence of instructions leaves the total lamports of any set holding every account they name unchanged |
| `VaultProperties.OthersKeepInactive` | programs/vault/src/lib.rs:39-46 | Only the owner's own `initialize` can create the owner's record: any other instruction, by anyone, leaves an inactive owner inactive |
| `VaultProperties.RunKeepsInactive` | programs/vault/src/lib.rs:39-46 | An inactive owner stays inactive through any sequence of instructions that holds no `initialize` signed by that owner |
| `VaultProperties.ClosedVaultRejects` | programs/vault/src/lib.rs:135-141 | After `close`, and after any later instructions by anyone that hold no `initialize` by the signer, `deposit`, `withdraw` and `close` by the signer fail whatever accounts are supplied |
| `VaultProperties.BumpsNeverChange` | programs/vault/src/lib.rs:51-54 | No instruction rewrites a stored record: `initialize` only adds, `deposit`/`withdraw` keep all, `close` only deletes |
| `VaultProperties.ReinitializeRestoresBumps` | programs/vault/src/lib.rs:52-53 | Re-initializing after `close` stores the same bumps the closed record held |
| `VaultProperties.SessionReturnsEverything` | programs/vault/src/lib.rs:145-160 | After deposit, withdraw and close, the vault and record are empty and the signer holds its starting lamports plus all the vault and record held: `close` sweeps the remainder, not a named amount |
| `VaultLedger.VaultProgram.SystemTransfer` | programs/vault/src/lib.rs:83-84 | The in-place transfer ends exactly as `Vault.Transfer` says, restoring the balances when the credit overflows |
| `VaultLedger.VaultProgram.Allocate` | programs/vault/src/lib.rs:39-45 | The allocation half of `init`: refuses an address that holds a record with `AccountAlreadyInUse`, otherwise funds it from the payer exactly as `Vault.Transfer` of `Vault.InitFunding` says, without touching the records |
| `VaultLedger.VaultProgram.Initialize` | programs/vault/src/lib.rs:30-55 | Checks the `vault_state` seeds, allocates and funds the record, checks the `vault` seeds (rolling back the funding when they fail), then writes `state_bump` and `vault_bump`; ends as `Vault.Initialize` says and keeps `Consistent` |
| `VaultLedger.VaultProgram.Deposit` | programs/vault/src/lib.rs:77-86 | Ends as `Vault.Deposit` says and keeps `Consistent` |
| `VaultLedger.VaultProgram.Withdraw` | programs/vault/src/lib.rs:108-123 | Proves the signer seeds derive the vault before transferring; ends as `Vault.Withdraw` says and keeps `Consistent` |
| `VaultLedger.VaultProgram.CloseRecord` | programs/vault/src/lib.rs:139 | `close = signer` in place: ends as `Vault.CloseAccount` says and removes the record, or changes nothing when the signer's balance would overflow |
| `VaultLedger.VaultProgram.Close` | programs/vault/src/lib.rs:146-160 | Sweeps the vault, then closes the record, rolling back if the close overflows; ends as `Vault.Close` says and keeps `Consistent` |

## Left out

- SHA-256 and the ed25519 curve test inside `create_program_address` are left out. The hash is a free constructor and the curve test is the `onCurve` parameter. The program id is not part of the derived address, because the model has only one program.
- Cross-program-invocation plumbing (`CpiContext`, `to_account_info`, `new_with_signer`) is left out. Only the transfer contract is kept. The program's signature for the vault is the proof that its signer seeds derive the vault.
- The system program's other checks on `transfer` are left out: the source must carry no data, and signatures must be present. Signers are keypair `Wallet`s, and the vault is a data-less system account.
- Rent sysvar arithmetic is left out. `Rent::minimum_balance` is the `minimumBalance` parameter, applied to the 10-byte size.
- The runtime's rejection of a system account left between zero and its rent-exempt minimum, after a partial withdraw or deposit, is left out. The program makes no such check itself.
- The 8-byte discriminator, Borsh serialisation, `declare_id!` and the `#[program]` dispatch are left out. The space constant keeps the discriminator's 8 bytes.
- Anchor's account-owner and discriminator checks are folded into one condition: `vault_state` must hold a record. An address the program does not own cannot hold a record in the model.
- The transaction's account flags are taken as given. Anchor's `mut` checks (`ConstraintMut`, lib.rs lines 32, 60, 63, 91, 94, 128 and 136) are not modelled: every account the model writes is assumed to be passed as writable.
- The identity of the `system_program` account (`Program<'info, System>`, lib.rs lines 47, 73, 104 and 142) is taken as given. The error for a wrong program account is not modelled.
- The `SystemAccount` owner check on `vault` (lib.rs lines 38, 67, 98 and 134) is taken as given. In the model every derived vault is owned by the system program, so `AccountOwnedByWrongProgram` is not modelled.
- An overflow in `close = signer` is an unwrapped checked addition, a panic that aborts the instruction. The model reports it as the error `ArithmeticOverflow` (`Vault.CloseAccount`); the ledger is unchanged either way.
- Concurrency is left out: the runtime runs instructions one at a time.
- `VaultProperties.Run` treats each instruction as a transaction of its own. A transaction of several instructions that rolls all of them back when one fails is not modelled.
- Lamports that other programs send to these accounts are left out. Only the four instructions change the ledger.
