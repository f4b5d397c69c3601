/**
 * What the four instructions guarantee together: lamports are conserved,
 * only the canonical accounts of the signing owner pass the constraints,
 * stored bumps never change, and each owner's record goes through
 * `Uninitialized -> Active -> Uninitialized`.
 */
module VaultProperties {
  import opened Pda
  import opened Vault

  /** The lamports held by the addresses in `s` together. */
  ghost function Total(l: map<Address, u64>, s: set<Address>): nat
    decreases s
  {
    if s == {} then 0
    else
      var a :| a in s;
      Balance(l, a) + Total(l, s - {a})
  }

  lemma {:induction false} TotalSplit(l: map<Address, u64>, s: set<Address>, a: Address)
    requires a in s
    ensures Total(l, s) == Balance(l, a) + Total(l, s - {a})
    decreases s
  {
    var b :| b in s && Total(l, s) == Balance(l, b) + Total(l, s - {b});
    if a != b {
      TotalSplit(l, s - {b}, a);
      TotalSplit(l, s - {a}, b);
      assert s - {b} - {a} == s - {a} - {b};
    }
  }

  lemma {:induction false} TotalFrame(l: map<Address, u64>, l': map<Address, u64>, s: set<Address>)
    requires forall a :: a in s ==> Balance(l', a) == Balance(l, a)
    ensures Total(l', s) == Total(l, s)
    decreases s
  {
    if s != {} {
      var a :| a in s;
      TotalSplit(l, s, a);
      TotalSplit(l', s, a);
      TotalFrame(l, l', s - {a});
    }
  }

  /** A move between two accounts of `s` leaves the lamports of `s` unchanged. */
  lemma MovedConserves(l: map<Address, u64>, l': map<Address, u64>, from: Address, to: Address, amount: nat, s: set<Address>)
    requires Moved(l, l', from, to, amount) && from != to
    requires from in s && to in s
    ensures Total(l', s) == Total(l, s)
  {
    TotalSplit(l, s, from);
    TotalSplit(l', s, from);
    TotalSplit(l, s - {from}, to);
    TotalSplit(l', s - {from}, to);
    TotalFrame(l, l', s - {from} - {to});
  }

  // ---------------------------------------------------------------------
  // Authorization by derived address and stored bump

  /**
   * Under the ledger invariant, the constraints of `Deposit`, `Withdraw` and
   * `Close` pass exactly for the signer's own record and vault: the canonical
   * `["state", signer]` address, holding a record, and the canonical
   * `["vault", vault_state]` address. Both depend on the signer alone.
   */
  lemma Authorization(c: Ledger, env: Cluster, signer: Wallet, vault: Address, vaultState: Address)
    requires Consistent(c, env)
    ensures ValidateVaultAccounts(c, env.onCurve, signer, vault, vaultState).Ok?
            <==> vaultState in c.records && CanonicalAccounts(env.onCurve, signer, vault, vaultState)
  {
    if vaultState in c.records {
      assert RecordCanonical(env.onCurve, vaultState, c.records[vaultState]);
    }
  }

  /**
   * Supplying any vault but the one derived from the signer's record fails
   * `Deposit`, `Withdraw` and `Close` with `ConstraintSeeds`; `Initialize`,
   * whose `init` field is checked first, fails with `AccountAlreadyInUse`.
   */
  lemma WrongVaultRejected(c: Ledger, env: Cluster, signer: Wallet, vault: Address, vaultState: Address, amount: u64)
    requires Consistent(c, env)
    requires vaultState in c.records && StateAccount(env.onCurve, signer) == Some((vaultState, c.records[vaultState].stateBump))
    requires vault != VaultAccount(env.onCurve, vaultState).value.0
    ensures Deposit(c, env, signer, vault, vaultState, amount) == Err(ConstraintSeeds)
    ensures Withdraw(c, env, signer, vault, vaultState, amount) == Err(ConstraintSeeds)
    ensures Close(c, env, signer, vault, vaultState) == Err(ConstraintSeeds)
    ensures Initialize(c, env, signer, vault, vaultState) == Err(AccountAlreadyInUse)
  {
    Authorization(c, env, signer, vault, vaultState);
    assert RecordCanonical(env.onCurve, vaultState, c.records[vaultState]);
  }

  // ---------------------------------------------------------------------
  // The ledger invariant is kept by every instruction

  lemma InitializeKeepsConsistent(c: Ledger, env: Cluster, signer: Wallet, vault: Address, vaultState: Address)
    requires Consistent(c, env)
    requires Initialize(c, env, signer, vault, vaultState).Ok?
    ensures Consistent(Initialize(c, env, signer, vault, vaultState).value, env)
  {
    var c' := Initialize(c, env, signer, vault, vaultState).value;
    forall a | a in c'.records
      ensures RecordCanonical(env.onCurve, a, c'.records[a])
      ensures Balance(c'.lamports, a) >= env.minimumBalance(VAULT_STATE_SPACE)
    {
      if a != vaultState {
        assert a in c.records && RecordCanonical(env.onCurve, a, c.records[a]);
      }
    }
  }

  lemma DepositKeepsConsistent(c: Ledger, env: Cluster, signer: Wallet, vault: Address, vaultState: Address, amount: u64)
    requires Consistent(c, env)
    requires Deposit(c, env, signer, vault, vaultState, amount).Ok?
    ensures Consistent(Deposit(c, env, signer, vault, vaultState, amount).value, env)
  {
    var c' := Deposit(c, env, signer, vault, vaultState, amount).value;
    forall a | a in c'.records
      ensures RecordCanonical(env.onCurve, a, c'.records[a])
      ensures Balance(c'.lamports, a) >= env.minimumBalance(VAULT_STATE_SPACE)
    {
      assert RecordCanonical(env.onCurve, a, c.records[a]);
    }
  }

  lemma WithdrawKeepsConsistent(c: Ledger, env: Cluster, signer: Wallet, vault: Address, vaultState: Address, amount: u64)
    requires Consistent(c, env)
    requires Withdraw(c, env, signer, vault, vaultState, amount).Ok?
    ensures Consistent(Withdraw(c, env, signer, vault, vaultState, amount).value, env)
  {
    var c' := Withdraw(c, env, signer, vault, vaultState, amount).value;
    forall a | a in c'.records
      ensures RecordCanonical(env.onCurve, a, c'.records[a])
      ensures Balance(c'.lamports, a) >= env.minimumBalance(VAULT_STATE_SPACE)
    {
      assert RecordCanonical(env.onCurve, a, c.records[a]);
    }
  }

  lemma CloseKeepsConsistent(c: Ledger, env: Cluster, signer: Wallet, vault: Address, vaultState: Address)
    requires Consistent(c, env)
    requires Close(c, env, signer, vault, vaultState).Ok?
    ensures Consistent(Close(c, env, signer, vault, vaultState).value, env)
  {
    var c' := Close(c, env, signer, vault, vaultState).value;
    forall a | a in c'.records
      ensures RecordCanonical(env.onCurve, a, c'.records[a])
      ensures Balance(c'.lamports, a) >= env.minimumBalance(VAULT_STATE_SPACE)
    {
      assert RecordCanonical(env.onCurve, a, c.records[a]);
    }
  }

  // ---------------------------------------------------------------------
  // Conservation of lamports

  /** `Initialize` only moves lamports from the signer to the new record. */
  lemma InitializeConserves(c: Ledger, env: Cluster, signer: Wallet, vault: Address, vaultState: Address, s: set<Address>)
    requires Initialize(c, env, signer, vault, vaultState).Ok?
    requires signer in s && vaultState in s
    ensures Total(Initialize(c, env, signer, vault, vaultState).value.lamports, s) == Total(c.lamports, s)
  {
    var c' := Initialize(c, env, signer, vault, vaultState).value;
    MovedConserves(c.lamports, c'.lamports, signer, vaultState,
                   InitFunding(Balance(c.lamports, vaultState), env.minimumBalance(VAULT_STATE_SPACE)), s);
  }

  /** `Deposit` keeps the lamports of any set of accounts holding the signer and the vault. */
  lemma DepositConserves(c: Ledger, env: Cluster, signer: Wallet, vault: Address, vaultState: Address, amount: u64, s: set<Address>)
    requires Deposit(c, env, signer, vault, vaultState, amount).Ok?
    requires signer in s && vault in s
    ensures Total(Deposit(c, env, signer, vault, vaultState, amount).value.lamports, s) == Total(c.lamports, s)
  {
    var c' := Deposit(c, env, signer, vault, vaultState, amount).value;
    MovedConserves(c.lamports, c'.lamports, signer, vault, amount, s);
  }

  lemma WithdrawConserves(c: Ledger, env: Cluster, signer: Wallet, vault: Address, vaultState: Address, amount: u64, s: set<Address>)
    requires Withdraw(c, env, signer, vault, vaultState, amount).Ok?
    requires signer in s && vault in s
    ensures Total(Withdraw(c, env, signer, vault, vaultState, amount).value.lamports, s) == Total(c.lamports, s)
  {
    var c' := Withdraw(c, env, signer, vault, vaultState, amount).value;
    MovedConserves(c.lamports, c'.lamports, vault, signer, amount, s);
  }

  /** `Close` hands the vault's and the record's lamports to the signer and creates or destroys none. */
  lemma CloseConserves(c: Ledger, env: Cluster, signer: Wallet, vault: Address, vaultState: Address, s: set<Address>)
    requires Close(c, env, signer, vault, vaultState).Ok?
    requires signer in s && vault in s && vaultState in s
    ensures Total(Close(c, env, signer, vault, vaultState).value.lamports, s) == Total(c.lamports, s)
  {
    var c' := Close(c, env, signer, vault, vaultState).value;
    var swept := Transfer(c.lamports, vault, signer, Balance(c.lamports, vault)).value;
    MovedConserves(c.lamports, swept, vault, signer, Balance(c.lamports, vault), s);
    MovedConserves(swept, c'.lamports, vaultState, signer, Balance(swept, vaultState), s);
  }

  // ---------------------------------------------------------------------
  // Zero amounts

  /**
   * Neither `Deposit` nor `Withdraw` looks at `amount`: with zero they succeed
   * exactly when the accounts pass the constraints, and change no balance.
   */
  lemma ZeroAmountIsNoOp(c: Ledger, env: Cluster, signer: Wallet, vault: Address, vaultState: Address)
    ensures Deposit(c, env, signer, vault, vaultState, 0).Ok?
            <==> ValidateVaultAccounts(c, env.onCurve, signer, vault, vaultState).Ok?
    ensures Withdraw(c, env, signer, vault, vaultState, 0).Ok?
            <==> ValidateVaultAccounts(c, env.onCurve, signer, vault, vaultState).Ok?
    ensures Deposit(c, env, signer, vault, vaultState, 0).Ok? ==>
            forall a :: Balance(Deposit(c, env, signer, vault, vaultState, 0).value.lamports, a) == Balance(c.lamports, a)
    ensures Withdraw(c, env, signer, vault, vaultState, 0).Ok? ==>
            forall a :: Balance(Withdraw(c, env, signer, vault, vaultState, 0).value.lamports, a) == Balance(c.lamports, a)
  {
  }

  // ---------------------------------------------------------------------
  // Lifecycle: Uninitialized -> Active -> Uninitialized

  /** `owner` has a live record at its canonical state address. */
  ghost predicate Active(c: Ledger, onCurve: Address -> bool, owner: Address)
  {
    StateAccount(onCurve, owner).Some? && StateAccount(onCurve, owner).value.0 in c.records
  }

  /** A successful `Initialize` takes the signer from `Uninitialized` to `Active`. */
  lemma InitializeActivates(c: Ledger, env: Cluster, signer: Wallet, vault: Address, vaultState: Address)
    requires Initialize(c, env, signer, vault, vaultState).Ok?
    ensures !Active(c, env.onCurve, signer)
    ensures Active(Initialize(c, env, signer, vault, vaultState).value, env.onCurve, signer)
  {
  }

  /** A second `Initialize` with the same accounts fails: the record exists. */
  lemma InitializeTwiceFails(c: Ledger, env: Cluster, signer: Wallet, vault: Address, vaultState: Address)
    requires Initialize(c, env, signer, vault, vaultState).Ok?
    ensures Initialize(Initialize(c, env, signer, vault, vaultState).value, env, signer, vault, vaultState)
            == Err(AccountAlreadyInUse)
  {
  }

  /** Without a record, `Deposit`, `Withdraw` and `Close` fail whatever accounts are supplied. */
  lemma InactiveRejects(c: Ledger, env: Cluster, signer: Wallet, vault: Address, vaultState: Address, amount: u64)
    requires Consistent(c, env)
    requires !Active(c, env.onCurve, signer)
    ensures Deposit(c, env, signer, vault, vaultState, amount).Err?
    ensures Withdraw(c, env, signer, vault, vaultState, amount).Err?
    ensures Close(c, env, signer, vault, vaultState).Err?
  {
    Authorization(c, env, signer, vault, vaultState);
  }

  /** A successful `Close` takes the signer from `Active` back to `Uninitialized`. */
  lemma CloseDeactivates(c: Ledger, env: Cluster, signer: Wallet, vault: Address, vaultState: Address)
    requires Consistent(c, env)
    requires Close(c, env, signer, vault, vaultState).Ok?
    ensures Active(c, env.onCurve, signer)
    ensures !Active(Close(c, env, signer, vault, vaultState).value, env.onCurve, signer)
  {
    Authorization(c, env, signer, vault, vaultState);
  }

  // ---------------------------------------------------------------------
  // Instructions in sequence

  /** One instruction of a transaction, with the accounts and the argument it names. */
  datatype Instruction =
    | InitializeIx(signer: Wallet, vault: Address, vaultState: Address)
    | DepositIx(signer: Wallet, vault: Address, vaultState: Address, amount: u64)
    | WithdrawIx(signer: Wallet, vault: Address, vaultState: Address, amount: u64)
    | CloseIx(signer: Wallet, vault: Address, vaultState: Address)

  /** The accounts an instruction names; its lamports can only move among these. */
  function Accounts(ix: Instruction): set<Address>
  {
    {ix.signer, ix.vault, ix.vaultState}
  }

  function Execute(c: Ledger, env: Cluster, ix: Instruction): Result<Ledger>
  {
    match ix
    case InitializeIx(signer, vault, vaultState) => Initialize(c, env, signer, vault, vaultState)
    case DepositIx(signer, vault, vaultState, amount) => Deposit(c, env, signer, vault, vaultState, amount)
    case WithdrawIx(signer, vault, vaultState, amount) => Withdraw(c, env, signer, vault, vaultState, amount)
    case CloseIx(signer, vault, vaultState) => Close(c, env, signer, vault, vaultState)
  }

  /** The ledger after the instructions in turn; a failed one leaves the ledger as it was. */
  function Run(c: Ledger, env: Cluster, txs: seq<Instruction>): Ledger
    decreases |txs|
  {
    if txs == [] then c
    else
      var next := if Execute(c, env, txs[0]).Ok? then Execute(c, env, txs[0]).value else c;
      Run(next, env, txs[1..])
  }

  lemma ExecuteKeepsConsistent(c: Ledger, env: Cluster, ix: Instruction)
    requires Consistent(c, env)
    requires Execute(c, env, ix).Ok?
    ensures Consistent(Execute(c, env, ix).value, env)
  {
    match ix
    case InitializeIx(signer, vault, vaultState) => InitializeKeepsConsistent(c, env, signer, vault, vaultState);
    case DepositIx(signer, vault, vaultState, amount) => DepositKeepsConsistent(c, env, signer, vault, vaultState, amount);
    case WithdrawIx(signer, vault, vaultState, amount) => WithdrawKeepsConsistent(c, env, signer, vault, vaultState, amount);
    case CloseIx(signer, vault, vaultState) => CloseKeepsConsistent(c, env, signer, vault, vaultState);
  }

  /** Any sequence of instructions, each succeeding or failing, keeps every record canonical. */
  lemma {:induction false} RunKeepsConsistent(c: Ledger, env: Cluster, txs: seq<Instruction>)
    requires Consistent(c, env)
    ensures Consistent(Run(c, env, txs), env)
    decreases |txs|
  {
    if txs != [] {
      if Execute(c, env, txs[0]).Ok? {
        ExecuteKeepsConsistent(c, env, txs[0]);
      }
      var next := if Execute(c, env, txs[0]).Ok? then Execute(c, env, txs[0]).value else c;
      RunKeepsConsistent(next, env, txs[1..]);
    }
  }

  /** One instruction creates or destroys no lamports among the accounts it names. */
  lemma ExecuteConserves(c: Ledger, env: Cluster, ix: Instruction, s: set<Address>)
    requires Execute(c, env, ix).Ok?
    requires Accounts(ix) <= s
    ensures Total(Execute(c, env, ix).value.lamports, s) == Total(c.lamports, s)
  {
    match ix
    case InitializeIx(signer, vault, vaultState) => InitializeConserves(c, env, signer, vault, vaultState, s);
    case DepositIx(signer, vault, vaultState, amount) => DepositConserves(c, env, signer, vault, vaultState, amount, s);
    case WithdrawIx(signer, vault, vaultState, amount) => WithdrawConserves(c, env, signer, vault, vaultState, amount, s);
    case CloseIx(signer, vault, vaultState) => CloseConserves(c, env, signer, vault, vaultState, s);
  }

  /**
   * A whole sequence of instructions creates or destroys no lamports among
   * the accounts they name: a failed instruction moves nothing.
   */
  lemma {:induction false} RunConserves(c: Ledger, env: Cluster, txs: seq<Instruction>, s: set<Address>)
    requires forall i :: 0 <= i < |txs| ==> Accounts(txs[i]) <= s
    ensures Total(Run(c, env, txs).lamports, s) == Total(c.lamports, s)
    decreases |txs|
  {
    if txs != [] {
      if Execute(c, env, txs[0]).Ok? {
        ExecuteConserves(c, env, txs[0], s);
      }
      var next := if Execute(c, env, txs[0]).Ok? then Execute(c, env, txs[0]).value else c;
      assert forall i :: 0 <= i < |txs[1..]| ==> Accounts(txs[1..][i]) <= s by {
        forall i | 0 <= i < |txs[1..]| ensures Accounts(txs[1..][i]) <= s {
          assert txs[1..][i] == txs[i + 1];
        }
      }
      RunConserves(next, env, txs[1..], s);
    }
  }

  /**
   * Only the owner's own `Initialize` can give it a record: any other
   * instruction, by anyone, leaves an inactive owner inactive. Another
   * signer's record sits at an address derived from that signer, which the
   * owner's derivation never yields.
   */
  lemma OthersKeepInactive(c: Ledger, env: Cluster, ix: Instruction, owner: Address)
    requires !Active(c, env.onCurve, owner)
    requires !(ix.InitializeIx? && ix.signer == owner)
    requires Execute(c, env, ix).Ok?
    ensures !Active(Execute(c, env, ix).value, env.onCurve, owner)
  {
  }

  /** Until the owner runs `Initialize` itself, an inactive owner stays inactive. */
  lemma {:induction false} RunKeepsInactive(c: Ledger, env: Cluster, txs: seq<Instruction>, owner: Address)
    requires !Active(c, env.onCurve, owner)
    requires forall i :: 0 <= i < |txs| ==> !(txs[i].InitializeIx? && txs[i].signer == owner)
    ensures !Active(Run(c, env, txs), env.onCurve, owner)
    decreases |txs|
  {
    if txs != [] {
      if Execute(c, env, txs[0]).Ok? {
        OthersKeepInactive(c, env, txs[0], owner);
      }
      var next := if Execute(c, env, txs[0]).Ok? then Execute(c, env, txs[0]).value else c;
      assert forall i :: 0 <= i < |txs[1..]| ==> !(txs[1..][i].InitializeIx? && txs[1..][i].signer == owner) by {
        forall i | 0 <= i < |txs[1..]| ensures !(txs[1..][i].InitializeIx? && txs[1..][i].signer == owner) {
          assert txs[1..][i] == txs[i + 1];
        }
      }
      RunKeepsInactive(next, env, txs[1..], owner);
    }
  }

  /**
   * After `Close`, whatever instructions follow, by the signer or anyone
   * else, `Deposit`, `Withdraw` and `Close` by the signer fail with any
   * accounts until the signer runs `Initialize` again.
   */
  lemma ClosedVaultRejects(c: Ledger, env: Cluster, signer: Wallet, vault: Address, vaultState: Address,
                           txs: seq<Instruction>, vault': Address, vaultState': Address, amount: u64)
    requires Consistent(c, env)
    requires Close(c, env, signer, vault, vaultState).Ok?
    requires forall i :: 0 <= i < |txs| ==> !(txs[i].InitializeIx? && txs[i].signer == signer)
    ensures Deposit(Run(Close(c, env, signer, vault, vaultState).value, env, txs), env, signer, vault', vaultState', amount).Err?
    ensures Withdraw(Run(Close(c, env, signer, vault, vaultState).value, env, txs), env, signer, vault', vaultState', amount).Err?
    ensures Close(Run(Close(c, env, signer, vault, vaultState).value, env, txs), env, signer, vault', vaultState').Err?
  {
    var closed := Close(c, env, signer, vault, vaultState).value;
    CloseDeactivates(c, env, signer, vault, vaultState);
    CloseKeepsConsistent(c, env, signer, vault, vaultState);
    RunKeepsConsistent(closed, env, txs);
    RunKeepsInactive(closed, env, txs, signer);
    InactiveRejects(Run(closed, env, txs), env, signer, vault', vaultState', amount);
  }

  // ---------------------------------------------------------------------
  // Stored bumps never change

  /** Every record present before and after a step is unchanged by it. */
  ghost predicate RecordsStable(c: Ledger, c': Ledger)
  {
    forall a :: a in c.records && a in c'.records ==> c'.records[a] == c.records[a]
  }

  /**
   * No instruction rewrites a stored record: `Initialize` only adds one at an
   * address that had none, `Deposit` and `Withdraw` leave them all as they
   * were, and `Close` only deletes the signer's.
   */
  lemma BumpsNeverChange(c: Ledger, env: Cluster, signer: Wallet, vault: Address, vaultState: Address, amount: u64)
    ensures Initialize(c, env, signer, vault, vaultState).Ok? ==>
            RecordsStable(c, Initialize(c, env, signer, vault, vaultState).value)
    ensures Deposit(c, env, signer, vault, vaultState, amount).Ok? ==>
            RecordsStable(c, Deposit(c, env, signer, vault, vaultState, amount).value)
    ensures Withdraw(c, env, signer, vault, vaultState, amount).Ok? ==>
            RecordsStable(c, Withdraw(c, env, signer, vault, vaultState, amount).value)
    ensures Close(c, env, signer, vault, vaultState).Ok? ==>
            RecordsStable(c, Close(c, env, signer, vault, vaultState).value)
  {
  }

  /**
   * Re-initializing after `Close` stores the very bumps the closed record
   * held: derivation is deterministic and the record held canonical bumps.
   */
  lemma ReinitializeRestoresBumps(c: Ledger, env: Cluster, signer: Wallet, vault: Address, vaultState: Address)
    requires Consistent(c, env)
    requires Close(c, env, signer, vault, vaultState).Ok?
    requires Initialize(Close(c, env, signer, vault, vaultState).value, env, signer, vault, vaultState).Ok?
    ensures Initialize(Close(c, env, signer, vault, vaultState).value, env, signer, vault, vaultState).value.records[vaultState]
            == c.records[vaultState]
  {
    Authorization(c, env, signer, vault, vaultState);
    assert RecordCanonical(env.onCurve, vaultState, c.records[vaultState]);
  }

  // ---------------------------------------------------------------------
  // A whole session

  /**
   * Deposit, then withdraw, then close: the signer ends with its starting
   * lamports plus whatever the vault and the record held at the start, and
   * the vault and the record end empty. `Close` sweeps what is left in the
   * vault, not an amount the caller names.
   */
  lemma SessionReturnsEverything(c: Ledger, env: Cluster, signer: Wallet, vault: Address, vaultState: Address,
                                 deposit: u64, withdrawal: u64)
    requires Deposit(c, env, signer, vault, vaultState, deposit).Ok?
    requires Withdraw(Deposit(c, env, signer, vault, vaultState, deposit).value, env, signer, vault, vaultState, withdrawal).Ok?
    requires Close(Withdraw(Deposit(c, env, signer, vault, vaultState, deposit).value,
                            env, signer, vault, vaultState, withdrawal).value, env, signer, vault, vaultState).Ok?
    ensures
      var c1 := Deposit(c, env, signer, vault, vaultState, deposit).value;
      var c2 := Withdraw(c1, env, signer, vault, vaultState, withdrawal).value;
      var c3 := Close(c2, env, signer, vault, vaultState).value;
      && Balance(c2.lamports, vault) == Balance(c.lamports, vault) + deposit - withdrawal
      && Balance(c3.lamports, vault) == 0
      && Balance(c3.lamports, vaultState) == 0
      && vaultState !in c3.records
      && Balance(c3.lamports, signer)
         == Balance(c.lamports, signer) + Balance(c.lamports, vault) + Balance(c.lamports, vaultState)
  {
  }
}
