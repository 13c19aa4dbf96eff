/** What interest, repayment and liquidation do to one loan. */
module Lending {
  import opened Base
  import opened Constants
  import opened TorchMath
  import opened Accounts
  import FloorDivision

  /** Interest accrues only on open principal, and only when the slot has advanced. */
  function Accrue(l: Loan, slot: u64): (r: Result<Loan>)
  {
    var elapsed := SaturatingSub(slot, l.lastSlot);
    if l.borrowed == 0 || elapsed == 0 then Ok(l)
    else
      var interest :- CalcInterest(l.borrowed, elapsed).OkOr(MathOverflow);
      var accrued :- CheckedAdd(l.accrued, interest);
      Ok(l.(accrued := accrued, lastSlot := slot))
  }

  function Debt(l: Loan): nat {
    l.borrowed + l.accrued
  }

  // ---------- Repayment ----------

  /** Interest is paid first; what is left over pays principal. */
  function InterestPart(l: Loan, paid: nat): nat {
    Min(paid, l.accrued)
  }

  function AfterPayment(l: Loan, paid: nat): (r: Loan)
    requires paid <= Debt(l)
    ensures Debt(r) == Debt(l) - paid
  {
    l.(accrued := l.accrued - InterestPart(l, paid), borrowed := l.borrowed - (paid - InterestPart(l, paid)))
  }

  // ---------- Liquidation ----------

  /** One liquidation of an accrued loan: the debt slice aimed at, and what is actually exchanged. */
  datatype Seizure = Seizure(slice: u64, seized: u64, covered: u64, badDebt: u64)

  function Seize(l: Loan, poolSol: u64, poolTok: u64): (r: Result<Seizure>)
    ensures r.Ok? ==> r.value.seized <= l.collateral
  {
    var _ :- Require(poolSol > 0 && poolTok > 0, ZeroPoolReserves);
    var value :- CalcCollateralValue(l.collateral, poolSol, poolTok).OkOr(MathOverflow);
    var debt :- CheckedAdd(l.borrowed, l.accrued);
    var ltv :- CalcLtvBps(debt, value).OkOr(MathOverflow);
    var _ :- Require(ltv > LIQUIDATION_THRESHOLD_BPS, NotLiquidatable);
    var slice := Min(debt * LIQUIDATION_CLOSE_BPS / 10_000, debt);
    var wanted :- CalcCollateralToSeize(slice, poolTok, poolSol).OkOr(MathOverflow);
    var seized := Min(wanted, l.collateral);
    // Taking everything, the liquidator pays the collateral's pool value instead of the slice.
    var covered := if wanted > l.collateral then value else slice;
    var kept :- CheckedAdd(covered, SaturatingSub(debt, slice));
    Ok(Seizure(slice, seized, covered, SaturatingSub(debt, kept)))
  }

  /** Principal written down by the payment part of a liquidation. */
  function PrincipalPart(l: Loan, s: Seizure): nat {
    s.covered - InterestPart(l, s.covered)
  }

  function AfterLiquidation(l: Loan, s: Seizure): (r: Loan)
    requires s.seized <= l.collateral
  {
    Loan(l.collateral - s.seized,
         SaturatingSub(l.borrowed, PrincipalPart(l, s) + s.badDebt),
         if s.badDebt > 0 then 0 else l.accrued - InterestPart(l, s.covered),
         l.lastSlot)
  }
}
