/** The traders' SOL: plain wallets and Torch vaults with their ledgers. */
module Wallets {
  import opened Base
  import opened MapSum

  datatype Vault = Vault(sol: u64, deposited: u64, withdrawn: u64, spent: u64, received: u64, lamports: u64)

  datatype Funds = Funds(wallets: map<Key, nat>, vaults: map<Key, Vault>)

  datatype Purse = Wallet(owner: Key) | TorchVault(vault: Key)

  /** A vault's five counters agree with each other and with its cash. */
  ghost predicate VaultBooks(v: Vault, rent: nat) {
    && v.sol + v.withdrawn + v.spent == v.deposited + v.received
    && v.lamports == v.sol + rent
  }

  ghost predicate AllBooks(vaults: map<Key, Vault>, rent: nat) {
    forall k :: k in vaults ==> VaultBooks(vaults[k], rent)
  }

  ghost function VaultLamports(vaults: map<Key, Vault>): map<Key, nat> {
    map k | k in vaults :: vaults[k].lamports
  }

  ghost function Total(f: Funds): nat {
    Sum(f.wallets) + Sum(VaultLamports(f.vaults))
  }

  lemma SetVault(vaults: map<Key, Vault>, k: Key, v: Vault)
    ensures Sum(VaultLamports(vaults[k := v])) + (if k in vaults then vaults[k].lamports else 0)
         == Sum(VaultLamports(vaults)) + v.lamports
  {
    assert VaultLamports(vaults[k := v]) == VaultLamports(vaults)[k := v.lamports];
    MapSum.Set(VaultLamports(vaults), k, v.lamports);
  }

  /** Lamports leave a wallet (a system transfer). */
  function Debit(f: Funds, owner: Key, amount: u64): (r: Result<Funds>)
    ensures r.Ok? ==> Total(r.value) + amount == Total(f) && r.value.vaults == f.vaults
    ensures r.Err? <==> Get(f.wallets, owner) < amount
  {
    MapSum.Set(f.wallets, owner, Get(f.wallets, owner) - Min(amount, Get(f.wallets, owner)));
    if amount <= Get(f.wallets, owner) then
      Ok(f.(wallets := f.wallets[owner := Get(f.wallets, owner) - amount]))
    else Err(InsufficientLamports)
  }

  /** Lamports arrive at a wallet. */
  function Credit(f: Funds, owner: Key, amount: u64): (r: Result<Funds>)
    ensures r.Ok? ==> Total(r.value) == Total(f) + amount && r.value.vaults == f.vaults
  {
    MapSum.Set(f.wallets, owner, Get(f.wallets, owner) + amount);
    if Get(f.wallets, owner) + amount <= U64_MAX then
      Ok(f.(wallets := f.wallets[owner := Get(f.wallets, owner) + amount]))
    else Err(MathOverflow)
  }

  /** A vault pays for a trade, a star, a repayment or a liquidation. */
  function Spend(v: Vault, amount: u64): (r: Result<Vault>)
    ensures r.Ok? ==> r.value.lamports + amount == v.lamports
    ensures forall rent: nat :: r.Ok? && VaultBooks(v, rent) ==> VaultBooks(r.value, rent)
  {
    if v.sol < amount then Err(InsufficientVaultBalance)
    else
      var lamports :- CheckedSub(v.lamports, amount);
      var spent :- CheckedAdd(v.spent, amount);
      Ok(v.(lamports := lamports, sol := v.sol - amount, spent := spent))
  }

  /** A vault receives sale proceeds, borrowed SOL or a reward. */
  function Receive(v: Vault, amount: u64): (r: Result<Vault>)
    ensures r.Ok? ==> r.value.lamports == v.lamports + amount
    ensures forall rent: nat :: r.Ok? && VaultBooks(v, rent) ==> VaultBooks(r.value, rent)
  {
    var lamports :- CheckedAdd(v.lamports, amount);
    var sol :- CheckedAdd(v.sol, amount);
    var received :- CheckedAdd(v.received, amount);
    Ok(v.(lamports := lamports, sol := sol, received := received))
  }

  /** Takes `amount` out of a purse, keeping every vault's books. */
  function Pay(f: Funds, p: Purse, amount: u64): (r: Result<Funds>)
    ensures r.Ok? ==> Total(r.value) + amount == Total(f)
    ensures forall rent: nat :: r.Ok? && AllBooks(f.vaults, rent) ==> AllBooks(r.value.vaults, rent)
  {
    match p
    case Wallet(owner) => Debit(f, owner, amount)
    case TorchVault(k) =>
      if k !in f.vaults then Err(AccountNotInitialized)
      else
        var v :- Spend(f.vaults[k], amount);
        SetVault(f.vaults, k, v);
        Ok(f.(vaults := f.vaults[k := v]))
  }

  /** Puts `amount` into a purse, keeping every vault's books. */
  function PayOut(f: Funds, p: Purse, amount: u64): (r: Result<Funds>)
    ensures r.Ok? ==> Total(r.value) == Total(f) + amount
    ensures forall rent: nat :: r.Ok? && AllBooks(f.vaults, rent) ==> AllBooks(r.value.vaults, rent)
  {
    match p
    case Wallet(owner) => Credit(f, owner, amount)
    case TorchVault(k) =>
      if k !in f.vaults then Err(AccountNotInitialized)
      else
        var v :- Receive(f.vaults[k], amount);
        SetVault(f.vaults, k, v);
        Ok(f.(vaults := f.vaults[k := v]))
  }

  /** create_vault: an empty vault whose rent its creator pays. */
  function Create(f: Funds, owner: Key, rent: u64): (r: Result<Funds>)
    ensures r.Ok? ==> Total(r.value) == Total(f)
    ensures r.Ok? && AllBooks(f.vaults, rent) ==> AllBooks(r.value.vaults, rent)
  {
    if owner in f.vaults then Err(AccountInUse)
    else
      var paid :- Debit(f, owner, rent);
      SetVault(paid.vaults, owner, Vault(0, 0, 0, 0, 0, rent));
      Ok(paid.(vaults := paid.vaults[owner := Vault(0, 0, 0, 0, 0, rent)]))
  }

  /** deposit_vault: anyone may deposit. */
  function Deposit(f: Funds, from: Key, k: Key, amount: u64): (r: Result<Funds>)
    ensures r.Ok? ==> Total(r.value) == Total(f)
    ensures forall rent: nat :: r.Ok? && AllBooks(f.vaults, rent) ==> AllBooks(r.value.vaults, rent)
  {
    if amount == 0 then Err(ZeroAmount)
    else if k !in f.vaults then Err(AccountNotInitialized)
    else
      var paid :- Debit(f, from, amount);
      var v := f.vaults[k];
      var lamports :- CheckedAdd(v.lamports, amount);
      var sol :- CheckedAdd(v.sol, amount);
      var deposited :- CheckedAdd(v.deposited, amount);
      var v' := v.(lamports := lamports, sol := sol, deposited := deposited);
      SetVault(paid.vaults, k, v');
      Ok(paid.(vaults := paid.vaults[k := v']))
  }

  /** withdraw_vault: the vault's authority takes SOL out. */
  function Withdraw(f: Funds, to: Key, k: Key, amount: u64): (r: Result<Funds>)
    ensures r.Ok? ==> Total(r.value) == Total(f)
    ensures forall rent: nat :: r.Ok? && AllBooks(f.vaults, rent) ==> AllBooks(r.value.vaults, rent)
  {
    if amount == 0 then Err(ZeroAmount)
    else if k !in f.vaults then Err(AccountNotInitialized)
    else
      var v := f.vaults[k];
      if v.sol < amount then Err(InsufficientVaultBalance)
      else
        var withdrawn :- CheckedAdd(v.withdrawn, amount);
        var lamports :- CheckedSub(v.lamports, amount);
        var v' := v.(lamports := lamports, sol := v.sol - amount, withdrawn := withdrawn);
        SetVault(f.vaults, k, v');
        Credit(f.(vaults := f.vaults[k := v']), to, amount)
  }
}
