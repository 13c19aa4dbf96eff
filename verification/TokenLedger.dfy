/**
 Where the token's supply is. Every transfer withholds the Token-2022 fee in the receiving
 account, so what arrives is smaller than what was sent.
 */
module TokenLedger {
  import opened Base
  import opened Constants
  import opened MapSum
  import opened TorchMath

  datatype Holder = UserAta(owner: Key) | VaultAta(vault: Key) | DexPool | TreasuryLock

  datatype Tokens = Tokens(
    curveVault: nat,           // spendable balance of the curve's token account
    curveWithheld: nat,        // fees withheld there by sells
    collateral: nat,           // spendable balance of the collateral vault
    collateralWithheld: nat,   // fees withheld there by collateral deposits
    held: map<Holder, nat>,
    withheld: nat,             // fees withheld in all other accounts
    burned: nat)

  ghost function Supply(t: Tokens): nat {
    t.curveVault + t.curveWithheld + t.collateral + t.collateralWithheld + Sum(t.held) + t.withheld + t.burned
  }

  function Net(amount: u64): (net: u64)
    ensures net + CalcTransferFee(amount) == amount
  {
    amount - CalcTransferFee(amount)
  }

  /** The curve's account pays tokens out to a holder. */
  function FromCurve(t: Tokens, to: Holder, amount: u64): (r: Result<Tokens>)
    ensures r.Ok? ==> Supply(r.value) == Supply(t)
    ensures r.Err? <==> t.curveVault < amount
  {
    MapSum.Set(t.held, to, Get(t.held, to) + Net(amount));
    if amount <= t.curveVault then
      Ok(t.(curveVault := t.curveVault - amount,
            held := t.held[to := Get(t.held, to) + Net(amount)],
            withheld := t.withheld + CalcTransferFee(amount)))
    else Err(InsufficientFunds)
  }

  /** A holder returns tokens to the curve's account. */
  function ToCurve(t: Tokens, from: Holder, amount: u64): (r: Result<Tokens>)
    ensures r.Ok? ==> Supply(r.value) == Supply(t)
    ensures r.Err? <==> Get(t.held, from) < amount
  {
    MapSum.Set(t.held, from, Get(t.held, from) - Min(amount, Get(t.held, from)));
    if amount <= Get(t.held, from) then
      Ok(t.(held := t.held[from := Get(t.held, from) - amount],
            curveVault := t.curveVault + Net(amount),
            curveWithheld := t.curveWithheld + CalcTransferFee(amount)))
    else Err(InsufficientFunds)
  }

  /** A borrower locks collateral; only the net amount backs the loan. */
  function ToCollateral(t: Tokens, from: Holder, amount: u64): (r: Result<Tokens>)
    ensures r.Ok? ==> Supply(r.value) == Supply(t)
    ensures r.Ok? ==> r.value.collateral == t.collateral + Net(amount)
    ensures r.Err? <==> Get(t.held, from) < amount
  {
    MapSum.Set(t.held, from, Get(t.held, from) - Min(amount, Get(t.held, from)));
    if amount <= Get(t.held, from) then
      Ok(t.(held := t.held[from := Get(t.held, from) - amount],
            collateral := t.collateral + Net(amount),
            collateralWithheld := t.collateralWithheld + CalcTransferFee(amount)))
    else Err(InsufficientFunds)
  }

  /** Collateral goes back to a borrower, or to a liquidator. */
  function FromCollateral(t: Tokens, to: Holder, amount: u64): (r: Result<Tokens>)
    ensures r.Ok? ==> Supply(r.value) == Supply(t)
    ensures r.Ok? ==> r.value.collateral + amount == t.collateral
    ensures r.Err? <==> t.collateral < amount
  {
    MapSum.Set(t.held, to, Get(t.held, to) + Net(amount));
    if amount <= t.collateral then
      Ok(t.(collateral := t.collateral - amount,
            held := t.held[to := Get(t.held, to) + Net(amount)],
            withheld := t.withheld + CalcTransferFee(amount)))
    else Err(InsufficientFunds)
  }

  /** A transfer between holders: wallet to wallet, a DEX swap leg, or tokens lent to a short seller. */
  function Move(t: Tokens, from: Holder, to: Holder, amount: u64): (r: Result<Tokens>)
    ensures r.Ok? ==> Supply(r.value) == Supply(t)
  {
    if amount <= Get(t.held, from) then
      var held := t.held[from := Get(t.held, from) - amount];
      MapSum.Set(t.held, from, Get(t.held, from) - amount);
      MapSum.Set(held, to, Get(held, to) + Net(amount));
      Ok(t.(held := held[to := Get(held, to) + Net(amount)], withheld := t.withheld + CalcTransferFee(amount)))
    else Err(InsufficientFunds)
  }

  /** Migration: burn the excess, then send the rest to the pool through the payer's account. */
  function SeedPool(t: Tokens, amount: u64): (r: Tokens)
    requires amount <= t.curveVault
    ensures Supply(r) == Supply(t)
    ensures r.curveVault == 0
    ensures r.burned == t.burned + t.curveVault - amount
    ensures Get(r.held, DexPool) == Get(t.held, DexPool) + Net(Net(amount))
  {
    MapSum.Set(t.held, DexPool, Get(t.held, DexPool) + Net(Net(amount)));
    t.(burned := t.burned + t.curveVault - amount,
       curveVault := 0,
       held := t.held[DexPool := Get(t.held, DexPool) + Net(Net(amount))],
       withheld := t.withheld + CalcTransferFee(amount) + CalcTransferFee(Net(amount)))
  }
}
